/**
 * The dashboard page: the one-hour expiry of the login record the login page
 * stores, the check it runs when it mounts, its logout, and the dispatch from
 * the selected section id to the management panel shown.
 */
module Dashboard {
  import opened Wrappers
  import opened Json
  import opened Client
  import Http
  import AuthRoutes

  /** A login record is good for one hour, in milliseconds. */
  const SessionLifetime := 3600000

  /**
   * `isLoginExpired`: more than an hour has passed since `loginTime`. An
   * unreadable time (`getTime()` is `NaN`) makes the comparison false.
   */
  predicate IsLoginExpired(loginTime: Option<int>, now: int) {
    loginTime.Some? && now - loginTime.value > SessionLifetime
  }

  /** Exactly one hour after login the record still holds; a millisecond later it is expired. */
  lemma ExpiryBoundary(t: int)
    ensures !IsLoginExpired(Some(t), t + SessionLifetime)
    ensures IsLoginExpired(Some(t), t + SessionLifetime + 1)
  {
  }

  /** Once expired, a record stays expired. */
  lemma ExpiryIsFinal(loginTime: Option<int>, now: int, later: int)
    requires IsLoginExpired(loginTime, now) && now <= later
    ensures IsLoginExpired(loginTime, later)
  {
  }

  /** `info.time`: only an object can carry it. */
  function TimeProperty(info: Value): (r: Option<Value>)
    ensures r.Some? <==> info.Obj? && "time" in info.fields
    ensures r.Some? ==> r.value == info.fields["time"]
  {
    if info.Obj? && "time" in info.fields then Some(info.fields["time"]) else None
  }

  /** What the mount effect does with the history. */
  datatype MountAction =
    | Stay      // nothing happens
    | ToLogin   // `router.push("/login")`
    | Expire    // `removeItem("loginInfo")` and `router.replace("/login")`

  /**
   * The decision of the mount effect, given what `getItem("loginInfo")`
   * returned. `parse` is `JSON.parse` (`None` when it throws) and `dateOf` is
   * `new Date(v).getTime()` (`None` for `NaN`).
   */
  function MountDecision(stored: Option<string>, now: int,
                         parse: string -> Option<Value>, dateOf: Value -> Option<int>): (a: MountAction)
    // a missing record, or an empty one, sends the visitor to the login page
    ensures a == ToLogin <==> stored.None? || stored.value == ""
    // a readable record with a truthy time that is more than an hour old is dropped
    ensures a == Expire <==>
              && stored.Some? && stored.value != ""
              && parse(stored.value).Some? && Truthy(parse(stored.value).value)
              && TimeProperty(parse(stored.value).value).Some?
              && Truthy(TimeProperty(parse(stored.value).value).value)
              && IsLoginExpired(dateOf(TimeProperty(parse(stored.value).value).value), now)
  {
    if stored.None? || stored.value == "" then ToLogin
    else
      match parse(stored.value)
      case None => Stay  // the parse error is swallowed
      case Some(info) =>
        var time := TimeProperty(info);
        if Truthy(info) && time.Some? && Truthy(time.value) && IsLoginExpired(dateOf(time.value), now)
        then Expire else Stay
  }

  /** The effect the page runs once on mount. */
  method MountEffect(b: Browser, now: int, parse: string -> Option<Value>, dateOf: Value -> Option<int>)
    returns (a: MountAction)
    requires b.Valid()
    modifies b`storage, b`history
    ensures b.Valid()
    ensures a == MountDecision(GetItem(old(b.storage), LoginInfoKey), now, parse, dateOf)
    ensures a == Stay ==> b.storage == old(b.storage) && b.history == old(b.history)
    ensures a == ToLogin ==> b.storage == old(b.storage) && b.history == old(b.history) + [LoginPath]
    ensures a == Expire ==>
              && b.storage == old(b.storage) - {LoginInfoKey}
              && b.history == old(b.history)[..|old(b.history)| - 1] + [LoginPath]
  {
    a := MountDecision(GetItem(b.storage, LoginInfoKey), now, parse, dateOf);
    match a
    case Stay =>
    case ToLogin =>
      b.Push(LoginPath);
    case Expire =>
      b.RemoveItem(LoginInfoKey);
      b.Replace(LoginPath);
  }

  /** A record that is there and readable but carries no `time` never expires. */
  lemma NoTimeNeverExpires(stored: string, now: int, parse: string -> Option<Value>, dateOf: Value -> Option<int>)
    requires stored != "" && parse(stored).Some? && TimeProperty(parse(stored).value).None?
    ensures MountDecision(Some(stored), now, parse, dateOf) == Stay
  {
  }

  /**
   * `handleLogout`: wait for the logout request, then drop the login record and
   * end on the login page. When the request itself fails, the function throws at
   * the `await` and nothing else happens.
   */
  method HandleLogout(b: Browser, reachable: bool)
    requires b.Valid()
    modifies b`storage, b`history, b`cookies
    ensures b.Valid()
    ensures !reachable ==> b.storage == old(b.storage) && b.history == old(b.history) && b.cookies == old(b.cookies)
    ensures reachable ==>
              && b.cookies == Http.ApplySetCookie(old(b.cookies), AuthRoutes.LogoutPost(old(b.cookies)).setCookie)
              && b.storage == old(b.storage) - {LoginInfoKey}
              && b.history == old(b.history)[..|old(b.history)| - 1] + [LoginPath, LoginPath]
              && b.Location() == LoginPath
  {
    if !reachable {
      return;
    }
    var response := AuthRoutes.LogoutPost(b.cookies);
    b.Receive(response.setCookie);
    b.RemoveItem(LoginInfoKey);
    b.Replace(LoginPath);
    b.Push(LoginPath);
  }

  /** After a logout that reached the server the browser holds no session cookie. */
  method LogoutEndsSession(b: Browser)
    requires b.Valid()
    modifies b`storage, b`history, b`cookies
    ensures b.Valid() && !Http.HasSession(b.cookies) && LoginInfoKey !in b.storage
  {
    AuthRoutes.LogoutEndsSession(b.cookies);
    HandleLogout(b, true);
  }

  // ---------------------------------------------------------------- sections

  /** The management panels, one per navigation item. */
  datatype Panel =
    | TestimonialsPanel | ExperiencePanel | TalksPanel | PublicationsPanel | PatentsPanel
    | CopyrightsPanel | StartupsPanel | GrantsPanel | GalleryPanel | PhdGuidePanel | LearningResourcesPanel

  /** The navigation item ids, in the order the sidebar lists them. */
  const NavigationIds: seq<string> :=
    ["testimonials", "experience", "talks", "publications", "patents", "copyrights",
     "startups", "grants", "gallery", "phdguide", "learningresources"]

  const InitialSection := "testimonials"

  /** `renderContent`: the panel for the active section, or `null` for any other id. */
  function RenderContent(section: string): Option<Panel> {
    match section
    case "testimonials" => Some(TestimonialsPanel)
    case "experience" => Some(ExperiencePanel)
    case "talks" => Some(TalksPanel)
    case "publications" => Some(PublicationsPanel)
    case "patents" => Some(PatentsPanel)
    case "copyrights" => Some(CopyrightsPanel)
    case "startups" => Some(StartupsPanel)
    case "grants" => Some(GrantsPanel)
    case "gallery" => Some(GalleryPanel)
    case "phdguide" => Some(PhdGuidePanel)
    case "learningresources" => Some(LearningResourcesPanel)
    case _ => None
  }

  /** The id of the navigation item that selects a panel. */
  function SectionId(p: Panel): (id: string)
    ensures id in NavigationIds
  {
    match p
    case TestimonialsPanel => "testimonials"
    case ExperiencePanel => "experience"
    case TalksPanel => "talks"
    case PublicationsPanel => "publications"
    case PatentsPanel => "patents"
    case CopyrightsPanel => "copyrights"
    case StartupsPanel => "startups"
    case GrantsPanel => "grants"
    case GalleryPanel => "gallery"
    case PhdGuidePanel => "phdguide"
    case LearningResourcesPanel => "learningresources"
  }

  /** Every panel is shown for its own id. */
  lemma RenderSectionId(p: Panel)
    ensures RenderContent(SectionId(p)) == Some(p)
  {
  }

  /** A panel is shown only for its own id, so each id selects exactly one panel. */
  lemma RenderOnlyOwnId(section: string, p: Panel)
    requires RenderContent(section) == Some(p)
    ensures section == SectionId(p)
  {
  }

  /** Every navigation item selects a panel; the page opens on the testimonials. */
  lemma NavigationCovered()
    ensures |NavigationIds| == 11
    ensures forall i :: 0 <= i < |NavigationIds| ==> RenderContent(NavigationIds[i]).Some?
    ensures RenderContent(InitialSection) == Some(TestimonialsPanel)
  {
  }
}
