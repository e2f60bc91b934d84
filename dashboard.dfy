/** The dashboard page's logic (src/pages/Dashboard.jsx): the avatar
    initials, the security-score band, logging out, and the redirect when no
    user is stored. The global loading handler, the API client and the
    router are the shared objects it acts on. */
module Dashboard {
  import opened Js
  import Api
  import App
  import Interceptors

  /** `c.toUpperCase()` for ASCII letters; every other character is kept. */
  function UpperAscii(c: char): (u: char)
    ensures !('a' <= u <= 'z')
    ensures 'a' <= c <= 'z' ==> 'A' <= u <= 'Z' && u as int == c as int - 32
    ensures !('a' <= c <= 'z') ==> u == c
  {
    if 'a' <= c <= 'z' then (c as int - 32) as char else c
  }

  /** `s.toUpperCase()` restricted to ASCII. */
  function UpperAsciiString(s: string): (r: string)
    ensures |r| == |s|
    ensures forall i :: 0 <= i < |s| ==> r[i] == UpperAscii(s[i])
  {
    if s == [] then [] else [UpperAscii(s[0])] + UpperAsciiString(s[1..])
  }

  /** `s.charAt(0)` */
  function FirstChar(s: string): (r: string)
    ensures |r| <= 1
    ensures s != [] ==> r == [s[0]]
    ensures s == [] ==> r == []
  {
    if s == [] then [] else [s[0]]
  }

  /** `(user.key || '').charAt(0)`: `None` when the name is a truthy value
      that is not a string, which has no `charAt` and throws. */
  function NameInitial(user: Value, key: string): (r: Option<string>)
    ensures r.None? <==> Truthy(Get(user, key)) && !Get(user, key).Str?
    ensures r.Some? && Get(user, key).Str? ==> r.value == FirstChar(Get(user, key).s)
    ensures r.Some? && !Get(user, key).Str? ==> r.value == ""
  {
    var name := Or(Get(user, key), Str(""));
    if name.Str? then Some(FirstChar(name.s)) else None
  }

  /** `getUserInitials()`: "?" without a user; otherwise the first letters
      of the first and last name, upper-cased; `None` when reading a name
      throws. */
  function GetUserInitials(user: Value): (r: Option<string>)
    ensures !Truthy(user) ==> r == Some("?")
    ensures Truthy(user) ==>
      (r.None? <==> NameInitial(user, "firstName").None? || NameInitial(user, "lastName").None?)
    ensures Truthy(user) && r.Some? ==> |r.value| <= 2
    ensures Truthy(user) && r.Some? ==> forall i :: 0 <= i < |r.value| ==> !('a' <= r.value[i] <= 'z')
  {
    if !Truthy(user) then Some("?")
    else
      match (NameInitial(user, "firstName"), NameInitial(user, "lastName"))
      case (Some(f), Some(l)) => Some(UpperAsciiString(f + l))
      case _ => None
  }

  /** A user with both names gets the two first letters, upper-cased. */
  lemma InitialsOfFullName()
    ensures GetUserInitials(Obj(map["firstName" := Str("ada"), "lastName" := Str("lovelace")])) == Some("AL")
  {
    var ada := Obj(map["firstName" := Str("ada"), "lastName" := Str("lovelace")]);
    assert Get(ada, "firstName") == Str("ada") && Get(ada, "lastName") == Str("lovelace");
    assert UpperAsciiString("al") == "AL";
  }

  /** A missing last name contributes nothing; a user with neither name
      gets the empty string, not "?", which only a missing user gets. */
  lemma InitialsOfPartialNames()
    ensures GetUserInitials(Obj(map["firstName" := Str("grace")])) == Some("G")
    ensures GetUserInitials(Obj(map[])) == Some("")
    ensures GetUserInitials(Null) == Some("?")
  {
    var grace := Obj(map["firstName" := Str("grace")]);
    assert Get(grace, "firstName") == Str("grace") && Get(grace, "lastName") == Undefined;
    assert UpperAsciiString("g") == "G";
  }


  /** The text a name contributes: the string itself, or nothing for a
      missing or falsy name, which `|| ''` replaces by the empty string. */
  function NameText(name: Value): string {
    if name.Str? then name.s else ""
  }

  /** The initials of a user whose names are strings or falsy: one letter
      for each non-empty name, in order, and nothing for a missing or falsy
      one. */
  lemma InitialsOfNamedUser(fields: map<string, Value>)
    requires Get(Obj(fields), "firstName").Str? || !Truthy(Get(Obj(fields), "firstName"))
    requires Get(Obj(fields), "lastName").Str? || !Truthy(Get(Obj(fields), "lastName"))
    ensures var r := GetUserInitials(Obj(fields));
      var first, last := NameText(Get(Obj(fields), "firstName")), NameText(Get(Obj(fields), "lastName"));
      && r.Some?
      && |r.value| == (if first == "" then 0 else 1) + (if last == "" then 0 else 1)
      && (first != "" ==> r.value[0] == UpperAscii(first[0]))
      && (last != "" ==> r.value[|r.value| - 1] == UpperAscii(last[0]))
  {
  }

  /** The security score the page shows. */
  const SecurityScore := 87

  datatype ScoreBand = Good | NeedsAttention | AtRisk

  /** The band a score falls in. */
  function BandOf(score: int): (b: ScoreBand)
    ensures b == Good <==> score > 80
    ensures b == NeedsAttention <==> 60 < score <= 80
    ensures b == AtRisk <==> score <= 60
  {
    if score > 80 then Good else if score > 60 then NeedsAttention else AtRisk
  }

  function BandName(b: ScoreBand): string {
    match b
    case Good => "Good"
    case NeedsAttention => "Needs Attention"
    case AtRisk => "At Risk"
  }

  function BandHue(b: ScoreBand): string {
    match b
    case Good => "green"
    case NeedsAttention => "yellow"
    case AtRisk => "red"
  }

  /** The label expression of the score panel. */
  function ScoreLabel(score: int): string {
    if score > 80 then "Good" else if score > 60 then "Needs Attention" else "At Risk"
  }

  /** The colour-class expression of the score panel. */
  function ScoreColour(score: int): string {
    if score > 80 then "text-green-400" else if score > 60 then "text-yellow-400" else "text-red-400"
  }

  /** The label and the colour use the same thresholds: both are the band's. */
  lemma LabelAndColourFollowBand(score: int)
    ensures ScoreLabel(score) == BandName(BandOf(score))
    ensures ScoreColour(score) == "text-" + BandHue(BandOf(score)) + "-400"
  {
  }

  lemma ShownScoreIsGood()
    ensures BandOf(SecurityScore) == Good && ScoreLabel(SecurityScore) == "Good"
  {
  }

  /** The page's own state. */
  /** Whether the logout call itself sends the browser to "/login": a token
      was stored, the call was rejected with a 401, and the browser was not
      already on "/login". */
  predicate LogoutRedirects(storage: map<string, string>, outcome: Api.Transport, pathname: string) {
    Api.HasToken(storage) && outcome.Rejected?
    && Api.UnauthorizedDecision(outcome.error, Api.LogoutUrl, pathname).redirect
  }

  /** A start immediately followed by an end notifies `true` then `false`
      exactly when nothing else was loading. */
  lemma StartThenEnd(cbs: seq<Interceptors.Callback>, n: nat)
    ensures var started := Interceptors.Step(n, Interceptors.Start);
      var ended := Interceptors.Step(started.count, Interceptors.End);
      && ended.count == n
      && Interceptors.Announced(cbs, started.notice) + Interceptors.Announced(cbs, ended.notice)
         == (if n == 0 then Interceptors.Deliveries(cbs, true) + Interceptors.Deliveries(cbs, false) else [])
      && Interceptors.AnnouncedErrors(cbs, started.notice) + Interceptors.AnnouncedErrors(cbs, ended.notice)
         == (if n == 0 then Interceptors.Throwing(cbs) + Interceptors.Throwing(cbs) else [])
  {
  }

  lemma AppendAssoc<T>(a: seq<T>, b: seq<T>, c: seq<T>)
    ensures (a + b) + c == a + (b + c)
  {
  }

  class DashboardPage {
    var user: Value
    var isLoggingOut: bool

    constructor ()
      ensures user == Null && !isLoggingOut
    {
      user := Null;
      isLoggingOut := false;
    }

    /** The mount effect: the stored user is shown, or, when there is none,
        the browser goes to "/login" and `user` stays as it was. */
    method OnMount(client: Api.Client, parse: string -> Option<Value>, router: App.Router)
      requires router.Valid()
      modifies this, router
      ensures router.Valid()
      ensures var current := Api.GetCurrentUser(old(client.storage), parse);
        && (!Truthy(current) ==> (user == old(user) && router.currentPage == "/login"
              && router.index == old(router.index) + 1
              && router.entries == old(router.entries[..router.index + 1]) + ["/login"]))
        && (Truthy(current) ==> user == current && unchanged(router))
      ensures isLoggingOut == old(isLoggingOut)
    {
      var current := Api.GetCurrentUser(client.storage, parse);
      if !Truthy(current) {
        router.Navigate("/login");
        return;
      }
      user := current;
    }

    /** `handleLogout()`: one `startLoading` and one `endLoading` around the
        logout call, and a redirect to "/login" whether or not the call
        throws. */
    method HandleLogout(loading: Interceptors.LoadingHandler, client: Api.Client, router: App.Router, outcome: Api.Transport)
      requires client.Valid() && router.Valid()
      modifies this, loading, client, router
      ensures client.Valid() && router.Valid()
      ensures loading.activeRequests == old(loading.activeRequests)
      ensures loading.callbacks == old(loading.callbacks)
      ensures !isLoggingOut && user == old(user)
      ensures router.currentPage == "/login"
      ensures client.storage == old(client.storage) - {Api.TokenKey}
      ensures client.headers == old(client.headers) - {Api.AuthorizationHeader}
      ensures client.requests == old(client.requests) + (if Api.HasToken(old(client.storage)) then [Api.LogoutUrl] else [])
      ensures loading.delivered == old(loading.delivered) + (if old(loading.activeRequests) == 0
        then Interceptors.Deliveries(old(loading.callbacks), true) + Interceptors.Deliveries(old(loading.callbacks), false)
        else [])
      ensures loading.errorLog == old(loading.errorLog) + (if old(loading.activeRequests) == 0
        then Interceptors.Throwing(old(loading.callbacks)) + Interceptors.Throwing(old(loading.callbacks))
        else [])
      ensures var pushed := if LogoutRedirects(old(client.storage), outcome, old(router.Pathname())) then ["/login", "/login"] else ["/login"];
        router.entries == old(router.entries[..router.index + 1]) + pushed && router.index == old(router.index) + |pushed|
    {
      ghost var redirects := LogoutRedirects(client.storage, outcome, router.Pathname());
      ghost var entries0, index0 := router.entries, router.index;
      ghost var cbs, n := loading.callbacks, loading.activeRequests;
      ghost var delivered0, errors0 := loading.delivered, loading.errorLog;
      isLoggingOut := true;
      loading.StartLoading();
      ghost var started := Interceptors.Step(n, Interceptors.Start);
      var settled := client.Logout(outcome, router);
      assert redirects ==> router.entries == entries0[..index0 + 1] + ["/login"] && router.index == index0 + 1;
      assert !redirects ==> router.entries == entries0 && router.index == index0;
      ghost var entries1, index1 := router.entries, router.index;
      router.Navigate("/login");
      assert router.entries == entries1[..index1 + 1] + ["/login"] && router.index == index1 + 1;
      if redirects {
        assert entries1[..index1 + 1] == entries1;
        assert router.entries == entries0[..index0 + 1] + ["/login", "/login"];
      }
      isLoggingOut := false;
      loading.EndLoading();
      ghost var ended := Interceptors.Step(started.count, Interceptors.End);
      StartThenEnd(cbs, n);
      AppendAssoc(delivered0, Interceptors.Announced(cbs, started.notice), Interceptors.Announced(cbs, ended.notice));
      AppendAssoc(errors0, Interceptors.AnnouncedErrors(cbs, started.notice), Interceptors.AnnouncedErrors(cbs, ended.notice));
    }
  }
}
