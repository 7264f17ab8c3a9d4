/** The settings view model: the comma-separated PlatformFilter text that
    edits ImportPlatforms, the BeginEdit/CancelEdit snapshot, and settings
    verification. */
module SettingsViewModel {
  import opened Wrappers
  import opened Text
  import opened LibrarySettings

  /** The PlatformFilter getter: the platforms joined with ",". */
  function FormatPlatformFilter(platforms: seq<string>): string {
    Join(platforms, ',')
  }

  /** Trims every piece, keeping order and empty pieces. */
  function TrimAll(pieces: seq<string>): (r: seq<string>)
    ensures |r| == |pieces|
    ensures forall i :: 0 <= i < |r| ==> r[i] == Trim(pieces[i])
  {
    seq(|pieces|, i requires 0 <= i < |pieces| => Trim(pieces[i]))
  }

  /** The PlatformFilter setter: blank text clears the filter, otherwise the
      trimmed text is split on every comma and each piece trimmed. */
  function ParsePlatformFilter(value: string): (r: seq<string>)
    ensures Trim(value) == "" ==> r == []
    ensures Trim(value) != "" ==> |r| >= 1 && r != [""]
    ensures Trim(value) != "" ==>
              exists pieces :: && Join(pieces, ',') == Trim(value) && |pieces| == |r|
                               && forall i :: 0 <= i < |r| ==> ',' !in pieces[i] && r[i] == Trim(pieces[i])
    ensures forall i :: 0 <= i < |r| ==> IsTrimmed(r[i]) && ',' !in r[i]
    ensures Trim(value) != "" && ',' !in Trim(value) ==> r == [Trim(value)]
  {
    var trimmed := Trim(value);
    if IsNullOrEmpty(Some(trimmed)) then [] else SplitPlatforms(trimmed)
  }

  /** The non-blank branch of the setter: split on every comma, trim each
      piece. The result is the trimmed comma-delimited segments in order. */
  function SplitPlatforms(trimmed: string): (r: seq<string>)
    requires IsTrimmed(trimmed) && trimmed != ""
    ensures |r| >= 1 && r != [""]
    ensures exists pieces :: && Join(pieces, ',') == trimmed && |pieces| == |r|
                             && forall i :: 0 <= i < |r| ==> ',' !in pieces[i] && r[i] == Trim(pieces[i])
    ensures forall i :: 0 <= i < |r| ==> IsTrimmed(r[i]) && ',' !in r[i]
    ensures ',' !in trimmed ==> r == [trimmed]
  {
    SplitPlatformsShape(trimmed);
    SplitPlatformsSegments(trimmed);
    TrimAll(Split(trimmed, ','))
  }

  lemma SplitPlatformsShape(trimmed: string)
    requires IsTrimmed(trimmed) && trimmed != ""
    ensures var r := TrimAll(Split(trimmed, ','));
            && |r| >= 1 && r != [""]
            && (forall i :: 0 <= i < |r| ==> IsTrimmed(r[i]) && ',' !in r[i])
            && (',' !in trimmed ==> r == [trimmed])
  {
    SinglePiece(trimmed, ',');
    TrimAllKeepsOut(Split(trimmed, ','), ',');
  }

  lemma SplitPlatformsSegments(trimmed: string)
    ensures var r := TrimAll(Split(trimmed, ','));
            exists pieces :: && Join(pieces, ',') == trimmed && |pieces| == |r|
                             && forall i :: 0 <= i < |r| ==> ',' !in pieces[i] && r[i] == Trim(pieces[i])
  {
    var pieces := Split(trimmed, ',');
    assert Join(pieces, ',') == trimmed;
  }

  /** Text with no comma and not blank is a single platform: the trimmed
      text. */
  lemma CommaFreeTextIsOnePlatform(value: string)
    requires Trim(value) != "" && ',' !in value
    ensures ParsePlatformFilter(value) == [Trim(value)]
  {
    TrimKeepsOut(value, ',');
  }

  lemma FormattedIsTrimmed(platforms: seq<string>)
    requires forall i :: 0 <= i < |platforms| ==> IsTrimmed(platforms[i])
    ensures Trim(FormatPlatformFilter(platforms)) == FormatPlatformFilter(platforms)
  {
    JoinTrimmed(platforms, ',');
  }

  lemma ParseTrimmedText(text: string)
    requires Trim(text) == text && text != ""
    ensures ParsePlatformFilter(text) == TrimAll(Split(text, ','))
  {
    assert !IsNullOrEmpty(Some(Trim(text)));
    assert ParsePlatformFilter(text) == SplitPlatforms(text);
  }

  lemma TrimAllTrimmed(pieces: seq<string>)
    requires forall i :: 0 <= i < |pieces| ==> IsTrimmed(pieces[i])
    ensures TrimAll(pieces) == pieces
  {
  }

  lemma TrimAllKeepsOut(pieces: seq<string>, c: char)
    requires forall i :: 0 <= i < |pieces| ==> c !in pieces[i]
    ensures forall i :: 0 <= i < |pieces| ==> c !in TrimAll(pieces)[i]
  {
    forall i | 0 <= i < |pieces|
      ensures c !in TrimAll(pieces)[i]
    {
      TrimKeepsOut(pieces[i], c);
    }
  }

  /** Empty pieces are kept: "a,,b" gives ["a", "", "b"]. */
  lemma ParseKeepsEmptyPieces()
    ensures ParsePlatformFilter("a,,b") == ["a", "", "b"]
  {
    assert FormatPlatformFilter(["a", "", "b"]) == "a,,b";
    PlatformFilterRoundTrip(["a", "", "b"]);
  }

  /** Round trip: a list of trimmed, comma-free platforms survives the getter
      and then the setter unchanged, except the single empty platform. */
  lemma {:induction false} PlatformFilterRoundTrip(platforms: seq<string>)
    requires forall i :: 0 <= i < |platforms| ==> ',' !in platforms[i] && IsTrimmed(platforms[i])
    requires platforms != [""]
    ensures ParsePlatformFilter(FormatPlatformFilter(platforms)) == platforms
  {
    var text := FormatPlatformFilter(platforms);
    JoinEmpty(platforms, ',');
    if platforms != [] {
      FormattedIsTrimmed(platforms);
      ParseTrimmedText(text);
      SplitJoin(platforms, ',');
      TrimAllTrimmed(platforms);
    }
  }

  /** The single empty platform is the one list the round trip loses: it
      reads back as no filter at all. */
  lemma EmptyPlatformIsLost()
    ensures FormatPlatformFilter([""]) == FormatPlatformFilter([])
    ensures ParsePlatformFilter(FormatPlatformFilter([""])) == []
  {
  }

  /** Normalisation is idempotent: writing back what the getter shows after
      any assignment leaves the platforms as they were. */
  lemma PlatformFilterIdempotent(value: string)
    ensures ParsePlatformFilter(FormatPlatformFilter(ParsePlatformFilter(value)))
         == ParsePlatformFilter(value)
  {
    var r := ParsePlatformFilter(value);
    PlatformFilterRoundTrip(r);
  }

  /** The view model: the current settings (null after a CancelEdit that had
      no snapshot) and the snapshot taken by BeginEdit. CancelEdit puts the
      snapshot object itself back, so from then until the next BeginEdit the
      two slots hold one object: shared records that, and while it is set an
      edit changes both. */
  datatype ViewModel = ViewModel(settings: Option<Settings>, editingClone: Option<Settings>, shared: bool)

  /** The plugin constructor: the stored settings, or fresh defaults when
      none were stored. */
  function Create(loaded: Option<Settings>): (vm: ViewModel)
    ensures vm.settings.Some?
    ensures loaded.Some? ==> vm.settings == loaded
    ensures loaded.None? ==> vm.settings == Some(Default)
    ensures vm.editingClone.None? && !vm.shared
  {
    ViewModel(Some(if loaded.Some? then loaded.value else Default), Option.None, false)
  }

  /** Reading PlatformFilter; None stands for the null-reference fault when
      the settings slot is empty. */
  function GetPlatformFilter(vm: ViewModel): (r: Option<string>)
    ensures r.Some? <==> vm.settings.Some?
    ensures r.Some? ==> r.value == FormatPlatformFilter(vm.settings.value.importPlatforms)
  {
    if vm.settings.None? then Option.None
    else Some(FormatPlatformFilter(vm.settings.value.importPlatforms))
  }

  /** An in-place change of the settings object: the snapshot changes with
      it when the two slots hold the same object. */
  function Mutate(vm: ViewModel, updated: Settings): ViewModel {
    vm.(settings := Some(updated), editingClone := if vm.shared then Some(updated) else vm.editingClone)
  }

  /** Writing PlatformFilter replaces ImportPlatforms with the parsed text and
      touches nothing else, except the snapshot when it is the same object;
      None stands for the null-reference fault. */
  function SetPlatformFilter(vm: ViewModel, value: string): (r: Option<ViewModel>)
    ensures r.Some? <==> vm.settings.Some?
    ensures r.Some? ==> r.value.settings
                        == Some(Assign(vm.settings.value, SetImportPlatforms(ParsePlatformFilter(value))))
    ensures r.Some? ==> r.value.shared == vm.shared
    ensures r.Some? && !vm.shared ==> r.value.editingClone == vm.editingClone
    ensures r.Some? && vm.shared ==> r.value.editingClone == r.value.settings
  {
    if vm.settings.None? then Option.None
    else Some(Mutate(vm, vm.settings.value.(importPlatforms := ParsePlatformFilter(value))))
  }

  /** Setting a blank filter clears the import filter, so every platform is
      imported afterwards. */
  lemma BlankFilterImportsAll(vm: ViewModel, value: string)
    requires vm.settings.Some?
    requires Trim(value) == ""
    ensures SetPlatformFilter(vm, value).Some?
    ensures SetPlatformFilter(vm, value).value.settings.value.importPlatforms == []
  {
  }

  /** BeginEdit: snapshot the current settings in a fresh deep copy. */
  function BeginEdit(vm: ViewModel): (r: ViewModel)
    ensures r.settings == vm.settings && r.editingClone == vm.settings
    ensures !r.shared
  {
    vm.(editingClone := vm.settings, shared := false)
  }

  /** CancelEdit: put the snapshot object itself back; both slots now hold
      that one object. */
  function CancelEdit(vm: ViewModel): (r: ViewModel)
    ensures r.settings == vm.editingClone && r.editingClone == vm.editingClone
    ensures r.shared
  {
    vm.(settings := vm.editingClone, shared := true)
  }

  /** An edit the settings view can make between BeginEdit and CancelEdit. */
  datatype Edit = EditPlatformFilter(text: string) | EditProperty(assignment: Assignment)

  /** Applies edits in order; None when one of them faults on empty settings. */
  function ApplyEdits(vm: ViewModel, edits: seq<Edit>): Option<ViewModel>
    decreases |edits|
  {
    if |edits| == 0 then Some(vm)
    else
      var next :- match edits[0]
        case EditPlatformFilter(t) => SetPlatformFilter(vm, t)
        case EditProperty(a) =>
          if vm.settings.None? then Option.None
          else Some(Mutate(vm, Assign(vm.settings.value, a)));
      ApplyEdits(next, edits[1..])
  }

  /** On non-null settings no edit faults. Edits leave a snapshot taken by
      BeginEdit alone; after a CancelEdit the snapshot is the settings object
      itself, so it follows every edit. */
  lemma {:induction false} EditsKeepSnapshot(vm: ViewModel, edits: seq<Edit>)
    ensures vm.settings.Some? ==> ApplyEdits(vm, edits).Some?
    ensures ApplyEdits(vm, edits).Some? ==> ApplyEdits(vm, edits).value.shared == vm.shared
    ensures ApplyEdits(vm, edits).Some? && !vm.shared ==> ApplyEdits(vm, edits).value.editingClone == vm.editingClone
    ensures ApplyEdits(vm, edits).Some? && vm.shared && |edits| > 0 ==>
              ApplyEdits(vm, edits).value.editingClone == ApplyEdits(vm, edits).value.settings
    decreases |edits|
  {
    if |edits| > 0 {
      match edits[0]
      case EditPlatformFilter(t) =>
        if SetPlatformFilter(vm, t).Some? {
          EditsKeepSnapshot(SetPlatformFilter(vm, t).value, edits[1..]);
        }
      case EditProperty(a) =>
        if vm.settings.Some? {
          EditsKeepSnapshot(Mutate(vm, Assign(vm.settings.value, a)), edits[1..]);
        }
    }
  }

  /** On non-null settings, any run of edits after BeginEdit succeeds, and
      CancelEdit then restores the settings seen at BeginEdit. */
  lemma CancelEditRestoresSnapshot(vm: ViewModel, edits: seq<Edit>)
    requires vm.settings.Some?
    ensures ApplyEdits(BeginEdit(vm), edits).Some?
    ensures CancelEdit(ApplyEdits(BeginEdit(vm), edits).value).settings == vm.settings
  {
    EditsKeepSnapshot(BeginEdit(vm), edits);
  }

  /** After a CancelEdit the settings and the snapshot are one object, so a
      second CancelEdit does not undo the edits made in between: they stay. */
  lemma SecondCancelKeepsEdits(vm: ViewModel, edits: seq<Edit>)
    requires vm.editingClone.Some? && |edits| > 0
    ensures ApplyEdits(CancelEdit(vm), edits).Some?
    ensures CancelEdit(ApplyEdits(CancelEdit(vm), edits).value).settings
            == ApplyEdits(CancelEdit(vm), edits).value.settings
  {
    EditsKeepSnapshot(CancelEdit(vm), edits);
  }

  /** BeginEdit, CancelEdit, then a PlatformFilter edit and a second
      CancelEdit: the filter text written in between is what remains. */
  lemma CancelTwiceKeepsFilter(loaded: Option<Settings>, text: string)
    ensures var cancelled := CancelEdit(BeginEdit(Create(loaded)));
            && SetPlatformFilter(cancelled, text).Some?
            && CancelEdit(SetPlatformFilter(cancelled, text).value).settings.value.importPlatforms
               == ParsePlatformFilter(text)
  {
  }

  /** CancelEdit without an earlier BeginEdit empties the settings slot. */
  lemma CancelWithoutBeginClearsSettings(loaded: Option<Settings>)
    ensures CancelEdit(Create(loaded)).settings.None?
    ensures GetPlatformFilter(CancelEdit(Create(loaded))).None?
  {
  }

  /** VerifySettings: the URL check is not implemented, so every settings
      object is accepted with no errors. */
  function VerifySettings(vm: ViewModel): (r: (bool, seq<string>))
    ensures r.0 <==> |r.1| == 0
    ensures r.0
  {
    var errors: seq<string> := [];
    (|errors| == 0, errors)
  }
}
