/** The plugin's settings record: server URL, platform import filter and the
    forward-auth cookie configuration, with the defaults a fresh settings
    object starts from. */
module LibrarySettings {
  import opened Wrappers

  /** How the plugin authenticates with the Gameyfin server. */
  datatype GameyfinAuthMethod = None | ForwardAuth

  datatype Settings = Settings(
    gameyfinUrl: string,
    /** Platform slugs to import; empty means import every platform. */
    importPlatforms: seq<string>,
    authMethod: GameyfinAuthMethod,
    authCookieName: Option<string>,
    authCookieValue: Option<string>)

  /** A freshly constructed settings object. */
  const Default: Settings :=
    Settings("", ["win"], GameyfinAuthMethod.None, Option.None, Option.None)

  /** One property setter call with its new value. */
  datatype Assignment =
    | SetGameyfinUrl(url: string)
    | SetImportPlatforms(platforms: seq<string>)
    | SetAuthMethod(authMethod: GameyfinAuthMethod)
    | SetAuthCookieName(name: Option<string>)
    | SetAuthCookieValue(cookie: Option<string>)

  /** The five properties of the settings record. */
  datatype Property = GameyfinUrl | ImportPlatforms | AuthMethod | AuthCookieName | AuthCookieValue

  function Target(a: Assignment): Property {
    match a
    case SetGameyfinUrl(_) => GameyfinUrl
    case SetImportPlatforms(_) => ImportPlatforms
    case SetAuthMethod(_) => AuthMethod
    case SetAuthCookieName(_) => AuthCookieName
    case SetAuthCookieValue(_) => AuthCookieValue
  }

  /** Runs a property setter: the assigned property takes the new value and
      every other property keeps its old one. */
  function Assign(s: Settings, a: Assignment): (r: Settings)
    ensures r.gameyfinUrl == (if a.SetGameyfinUrl? then a.url else s.gameyfinUrl)
    ensures r.importPlatforms == (if a.SetImportPlatforms? then a.platforms else s.importPlatforms)
    ensures r.authMethod == (if a.SetAuthMethod? then a.authMethod else s.authMethod)
    ensures r.authCookieName == (if a.SetAuthCookieName? then a.name else s.authCookieName)
    ensures r.authCookieValue == (if a.SetAuthCookieValue? then a.cookie else s.authCookieValue)
  {
    match a
    case SetGameyfinUrl(u) => s.(gameyfinUrl := u)
    case SetImportPlatforms(ps) => s.(importPlatforms := ps)
    case SetAuthMethod(m) => s.(authMethod := m)
    case SetAuthCookieName(n) => s.(authCookieName := n)
    case SetAuthCookieValue(v) => s.(authCookieValue := v)
  }

  /** Setters of different properties do not interfere: either order gives
      the same settings. */
  lemma AssignmentsCommute(s: Settings, a: Assignment, b: Assignment)
    requires Target(a) != Target(b)
    ensures Assign(Assign(s, a), b) == Assign(Assign(s, b), a)
  {
  }

  /** A second assignment to the same property overwrites the first. */
  lemma LastAssignmentWins(s: Settings, a: Assignment, b: Assignment)
    requires Target(a) == Target(b)
    ensures Assign(Assign(s, a), b) == Assign(s, b)
  {
  }
}
