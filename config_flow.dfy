/** The configuration flows: the user step that cleans the domain, searches areas or
    looks up the station and creates the entry, and the options step that re-checks a
    new domain and merges the input into the entry. The Home Assistant flow plumbing
    (forms, schemas, unique-id aborts) is reduced to the values the steps compute. */
module ConfigFlow {
  import opened Wrappers
  import opened Values
  import Text
  import Stations

  // ---------------------------------------------------------------- domain cleaning

  /** `c` matches the lower-case ASCII letter `l` under `re.IGNORECASE`: either case,
      and for `s` also the long s `ſ`, which Python's Unicode case folding equates. */
  predicate Folds(c: char, l: char)
    requires 'a' <= l <= 'z'
  {
    c == l || c as int == l as int - 32 || (l == 's' && c == '\U{17F}')
  }

  /** The length of the match of `^\s*https?://` at the start of `s`, 0 when there is
      none. `s?` is tried with the `s` first; without it the next character must be `:`. */
  function SchemeLength(s: string): (n: nat)
    ensures n <= |s|
  {
    var t := Text.TrimStart(s);
    var w := |s| - |t|;
    if |t| >= 7 && Folds(t[0], 'h') && Folds(t[1], 't') && Folds(t[2], 't') && Folds(t[3], 'p') then
      var k := if Folds(t[4], 's') then 5 else 4;
      if |t| >= k + 3 && t[k..k + 3] == "://" then w + k + 3 else 0
    else 0
  }

  /** The match of `/+\s*$` removed from `r`: the run of slashes standing right before
      the trailing whitespace, together with that whitespace; nothing when no slash
      stands there. (`$` may also match before a final newline, but `\s*` takes the
      newline too, so the match always reaches the end.) */
  function StripTrail(r: string): (u: string)
    ensures |u| <= |r| && u == r[..|u|]
    ensures u != r ==> u == [] || u[|u| - 1] != '/'
    ensures u != r ==> forall i :: |u| <= i < |r| ==> r[i] == '/' || Text.IsSpace(r[i])
  {
    var t := Text.TrimEnd(r);
    var v := Text.RStripChar(t, '/');
    if |v| < |t| then v else r
  }

  /** `re.sub(r'^\s*https?://|/+\s*$', '', domain, flags=re.IGNORECASE)`: the scheme
      match is tried first at the start; the scan then resumes after it and the trailing
      match is the only other one. */
  function CleanDomain(s: string): (r: string)
    ensures var rest := s[SchemeLength(s)..]; |r| <= |rest| && r == rest[..|r|]
  {
    StripTrail(s[SchemeLength(s)..])
  }

  /** A scheme the cleaning removes: `http://` or `https://`, in any letter case. */
  predicate IsScheme(p: string) {
    && |p| >= 7 && Folds(p[0], 'h') && Folds(p[1], 't') && Folds(p[2], 't') && Folds(p[3], 'p')
    && ((|p| == 7 && p[4..] == "://") || (|p| == 8 && Folds(p[4], 's') && p[5..] == "://"))
  }

  /** A host the cleaning leaves alone at its end: empty, or not ending in a slash or
      whitespace. */
  predicate CleanEnd(h: string) {
    h == [] || (h[|h| - 1] != '/' && !Text.IsSpace(h[|h| - 1]))
  }

  predicate AllSlashes(s: string) {
    forall i :: 0 <= i < |s| ==> s[i] == '/'
  }

  /** Leading whitespace before a character that is not whitespace is what `lstrip`
      removes. */
  lemma {:induction false} TrimStartAfterSpaces(a: string, b: string)
    requires Text.AllSpace(a) && b != [] && !Text.IsSpace(b[0])
    ensures Text.TrimStart(a + b) == b
    decreases |a|
  {
    if a == [] {
      assert a + b == b;
    } else {
      var s := a + b;
      assert s[0] == a[0] && Text.IsSpace(a[0]);
      assert s[1..] == a[1..] + b;
      assert Text.AllSpace(a[1..]) by {
        forall i | 0 <= i < |a| - 1
          ensures Text.IsSpace(a[1..][i])
        {
          assert a[1..][i] == a[i + 1];
        }
      }
      TrimStartAfterSpaces(a[1..], b);
    }
  }

  /** Trailing whitespace after a character that is not whitespace is what `rstrip`
      removes. */
  lemma {:induction false} TrimEndBeforeSpaces(a: string, b: string)
    requires a != [] && !Text.IsSpace(a[|a| - 1]) && Text.AllSpace(b)
    ensures Text.TrimEnd(a + b) == a
    decreases |b|
  {
    if b != [] {
      assert (a + b)[..|a + b| - 1] == a + b[..|b| - 1];
      TrimEndBeforeSpaces(a, b[..|b| - 1]);
    } else {
      assert a + b == a;
    }
  }

  /** Trailing slashes after a character that is not a slash are what `rstrip('/')`
      removes. */
  lemma {:induction false} RStripBeforeSlashes(a: string, b: string)
    requires (a == [] || a[|a| - 1] != '/') && AllSlashes(b)
    ensures Text.RStripChar(a + b, '/') == a
    decreases |b|
  {
    if b != [] {
      assert (a + b)[..|a + b| - 1] == a + b[..|b| - 1];
      RStripBeforeSlashes(a, b[..|b| - 1]);
    } else {
      assert a + b == a;
    }
  }

  /** The trailing match removes a run of slashes and the whitespace after it, and stops
      at a host end that needs no cleaning. */
  lemma StripTrailOf(h: string, slashes: string, trail: string)
    requires CleanEnd(h) && AllSlashes(slashes) && Text.AllSpace(trail) && (slashes != [] || trail == [])
    ensures StripTrail(h + slashes + trail) == h
  {
    var r := h + slashes + trail;
    if slashes == [] {
      assert r == h;
      if h != [] {
        TrimEndBeforeSpaces(h, []);
        RStripBeforeSlashes(h, []);
      }
    } else {
      TrimEndBeforeSpaces(h + slashes, trail);
      RStripBeforeSlashes(h, slashes);
    }
  }

  /** The scheme match covers the leading whitespace and the scheme. */
  lemma SchemeAfterSpaces(lead: string, scheme: string, tail: string)
    requires Text.AllSpace(lead) && IsScheme(scheme)
    ensures SchemeLength(lead + scheme + tail) == |lead| + |scheme|
  {
    var t := scheme + tail;
    assert lead + scheme + tail == lead + t;
    TrimStartAfterSpaces(lead, t);
    assert t[..|scheme|] == scheme;
    assert Folds(t[4], 's') <==> |scheme| == 8;
  }

  /** A URL typed with surrounding whitespace, an `http://` or `https://` scheme in any
      case and trailing slashes is cleaned down to its host. */
  lemma CleanUrl(lead: string, scheme: string, host: string, slashes: string, trail: string)
    requires Text.AllSpace(lead) && IsScheme(scheme) && CleanEnd(host)
    requires AllSlashes(slashes) && Text.AllSpace(trail) && (slashes != [] || trail == [])
    ensures CleanDomain(lead + scheme + host + slashes + trail) == host
  {
    var tail := host + slashes + trail;
    var s := lead + scheme + tail;
    assert s == lead + scheme + host + slashes + trail;
    SchemeAfterSpaces(lead, scheme, tail);
    assert s[|lead| + |scheme|..] == tail;
    StripTrailOf(host, slashes, trail);
  }

  /** A domain without a scheme and without a slash or whitespace at its end is kept. */
  lemma CleanBare(s: string)
    requires SchemeLength(s) == 0 && CleanEnd(s)
    ensures CleanDomain(s) == s
  {
    assert s[0..] == s;
    StripTrailOf(s, [], []);
    assert s + [] + [] == s;
  }

  // ---------------------------------------------------------------- the flows

  /** What the flow keeps in `self.context` between the steps: the pending message
      (`last_error`), the station found, and the unique id set for the entry. */
  datatype Context = Context(lastError: Option<Tip>, station: Option<Stations.StationInfo>, uniqueId: Option<Value>)

  /** The message shown under a form, by what caused it; the texts themselves are not
      modelled. */
  datatype Tip =
    | NotFound(search: string)   // no area found for the search
    | Raised(error: Error)       // the station lookup raised
    | UserHint                   // the user step's default help text
    | OptionsHint                // the options step's default help text

  /** The area choice a search adds to the form: its default and the choices. */
  datatype AreaChoice = AreaChoice(default: Value, choices: map<string, string>)

  /** What a step returns: a created entry, or the form shown again with its defaults. */
  datatype Step =
    | CreateEntry(title: Value, data: Dict)
    | ShowForm(domain: Value, areas: Option<AreaChoice>, caiyun: Value, tip: Tip)

  /** The label of the `auto` choice. */
  const AutoLabel := "自动获取"

  /** The form only hands over strings under `domain`, `search` and `area_id`. */
  predicate Typed(input: Dict) {
    && ("domain" in input ==> input["domain"].Str?)
    && ("search" in input ==> input["search"].Str?)
    && ("area_id" in input ==> input["area_id"].Str?)
  }

  /** `user_input.get(CONF_DOMAIN) or ''`, cleaned. */
  function UserDomain(input: Dict): string
    requires Typed(input)
  {
    var d := Or(Get(input, "domain"), Str(""));
    CleanDomain(if d.Str? then d.s else "")
  }

  /** The input and the area id once the domain is known: a non-empty cleaned domain is
      written back, and an empty area id becomes `auto`, which `setdefault` also stores
      when the input has no `area_id` at all. */
  function Defaulted(input: Dict, domain: string): (r: (Dict, string))
    requires Typed(input)
    ensures domain == "" ==> r.0 == input
    ensures domain != "" ==> "domain" in r.0 && r.0["domain"] == Str(domain)
    ensures domain != "" && "area_id" !in input ==> "area_id" in r.0 && r.0["area_id"] == Str("auto")
    ensures forall k :: k in input && k != "domain" ==> k in r.0 && r.0[k] == input[k]
    ensures Typed(r.0)
  {
    var areaId := if "area_id" in input then input["area_id"].s else "";
    if domain == "" then (input, areaId)
    else
      var inp := input["domain" := Str(domain)];
      if areaId != "" then (inp, areaId)
      else if "area_id" in inp then (inp, "auto")
      else (inp["area_id" := Str("auto")], "auto")
  }

  /** The choices of a search: `auto` first, overridden by an area of that id. */
  function Choices(areas: map<string, string>): (r: map<string, string>)
    ensures r.Keys == areas.Keys + {"auto"}
    ensures forall k :: k in areas ==> r[k] == areas[k]
    ensures "auto" !in areas ==> r["auto"] == AutoLabel
  {
    map["auto" := AutoLabel] + areas
  }

  /** The form shown at the end of a step, taking the pending message (or `hint`) as
      its tip and clearing it. */
  function Form(ctx: Context, defaults: Dict, domain: Value, areas: Option<AreaChoice>, hint: Tip): (r: (Result<Step>, Context))
    ensures r.1 == ctx.(lastError := None)
    ensures r.0.Ok? && r.0.value.ShowForm? && r.0.value.areas == areas && r.0.value.domain == domain
    ensures r.0.value.tip == (if ctx.lastError.Some? then ctx.lastError.value else hint)
  {
    var tip := if ctx.lastError.Some? then ctx.lastError.value else hint;
    (Ok(ShowForm(domain, areas, GetOr(defaults, "caiyun", Bool(false)), tip)), ctx.(lastError := None))
  }

  /** A search with what it found: its areas offered with `auto`, keeping the area id
      when it is among them, or the message that none was found; an error escapes. */
  function Searched(ctx: Context, inp: Dict, areaId: string, search: string, latest: Value,
                    searched: Result<map<string, string>>): (r: (Result<Step>, Context))
  {
    match searched
    case Err(e) => (Err(e), ctx)
    case Ok(areas) =>
      if areas != map[] then
        var choices := Choices(areas);
        var def := if areaId in choices then Str(areaId) else Str("");
        Form(ctx, inp, GetOr(inp, "domain", latest), Some(AreaChoice(def, choices)), UserHint)
      else
        Form(ctx.(lastError := Some(NotFound(search))), inp, GetOr(inp, "domain", latest), None, UserHint)
  }

  /** A lookup of the area id with what it found: the entry, without `search`, or the
      form with the lookup's error; the area id becomes the flow's unique id either way. */
  function LookedUp(ctx: Context, inp: Dict, areaId: string, latest: Value,
                    found: Result<Stations.StationInfo>): (r: (Result<Step>, Context))
  {
    var ctx' := ctx.(uniqueId := Some(Str(areaId)));
    match found
    case Ok(st) => (Ok(CreateEntry(st.AreaName(), inp - {"search"})), ctx'.(station := Some(st)))
    case Err(e) => Form(ctx'.(lastError := Some(Raised(e))), inp, GetOr(inp, "domain", latest), None, UserHint)
  }

  /** The user step once the domain is cleaned and the area id defaulted, given what the
      search gives and what the station lookup gives: a search offers its areas or tells
      that none was found, an area id looks its station up, and any other input shows
      the form again. */
  function UserDecide(ctx: Context, inp: Dict, areaId: string, search: Value, latest: Value,
                      searched: Result<map<string, string>>, found: Result<Stations.StationInfo>)
    : (r: (Result<Step>, Context))
    requires search.Str?
  {
    if Truthy(search) then Searched(ctx, inp, areaId, search.s, latest, searched)
    else if areaId != "" then LookedUp(ctx, inp, areaId, latest, found)
    else Form(ctx, inp, GetOr(inp, "domain", latest), None, UserHint)
  }

  /** What the decision promises: an entry exactly when no search is asked and the
      station is found, holding the input without `search`; an escaping error exactly
      when the search raises; the choices of a search; and the message of each form. */
  lemma UserDecideFacts(ctx: Context, inp: Dict, areaId: string, search: Value, latest: Value,
                        searched: Result<map<string, string>>, found: Result<Stations.StationInfo>)
    requires search.Str?
    ensures var r := UserDecide(ctx, inp, areaId, search, latest, searched, found);
      // an entry, exactly when no search is asked and the station is found, without `search`
      && (r.0.Ok? && r.0.value.CreateEntry? <==> !Truthy(search) && areaId != "" && found.Ok?)
      && (r.0.Ok? && r.0.value.CreateEntry? ==>
            r.0.value.data == inp - {"search"} && r.0.value.title == found.value.AreaName()
            && r.1 == ctx.(station := Some(found.value), uniqueId := Some(Str(areaId))))
      // the step raises only when the search does
      && (r.0.Err? <==> Truthy(search) && searched.Err?)
      && (r.0.Err? ==> r.0.error == searched.error && r.1 == ctx)
      // a search with results offers `auto` and them, resetting an area id not among them
      && (Truthy(search) && searched.Ok? && searched.value != map[] ==>
            var choices := Choices(searched.value);
            r.0.Ok? && r.0.value.ShowForm?
            && r.0.value.areas == Some(AreaChoice(if areaId in choices then Str(areaId) else Str(""), choices)))
      // a search without results tells so
      && (Truthy(search) && searched == Ok(map[]) ==>
            r.0.Ok? && r.0.value.ShowForm? && r.0.value.areas.None? && r.0.value.tip == NotFound(search.s))
      // a failed lookup shows its error
      && (!Truthy(search) && areaId != "" && found.Err? ==>
            r.0.Ok? && r.0.value.ShowForm? && r.0.value.tip == Raised(found.error))
      // every form shown clears the message and defaults to the input's domain, else the last one
      && (r.0.Ok? && r.0.value.ShowForm? ==> r.1.lastError.None? && r.0.value.domain == GetOr(inp, "domain", latest))
  {
  }

  /** `async_step_user(user_input)`, given what the search request would reply, what the
      station request would reply, the domain stored by the last setup, and the host's
      coordinates. An error out of the search escapes the step; an error out of the
      station lookup is kept as the message. */
  function UserStep(ctx: Context, input: Dict, latest: Value, searchReply: Result<Stations.SearchReply>,
                    stationReply: Result<Option<Value>>, hostLat: Value, hostLng: Value): (r: (Result<Step>, Context))
    requires Typed(input)
  {
    var domain := UserDomain(input);
    var (inp, areaId) := Defaulted(input, domain);
    UserDecide(ctx, inp, areaId, GetOr(input, "search", Str("")), latest, Stations.SearchResult(domain, searchReply),
               Stations.StationLookup(domain, Str(areaId), Null, Null, hostLat, hostLng, stationReply))
  }

  /** An entry of the user step needs a domain that is not empty once cleaned; it holds
      that cleaned domain and every other key of the input but `search`. */
  lemma UserStepEntry(ctx: Context, input: Dict, latest: Value, searchReply: Result<Stations.SearchReply>,
                      stationReply: Result<Option<Value>>, hostLat: Value, hostLng: Value)
    requires Typed(input)
    ensures var r := UserStep(ctx, input, latest, searchReply, stationReply, hostLat, hostLng);
      r.0.Ok? && r.0.value.CreateEntry? ==>
        && UserDomain(input) != "" && "search" !in r.0.value.data
        && "domain" in r.0.value.data && r.0.value.data["domain"] == Str(UserDomain(input))
        && (forall k :: k in input && k != "domain" && k != "search" ==> k in r.0.value.data && r.0.value.data[k] == input[k])
  {
    var domain := UserDomain(input);
    var (inp, areaId) := Defaulted(input, domain);
    var search := GetOr(input, "search", Str(""));
    var found := Stations.StationLookup(domain, Str(areaId), Null, Null, hostLat, hostLng, stationReply);
    UserStepIs(ctx, input, latest, searchReply, stationReply, hostLat, hostLng, inp, areaId, domain);
    UserDecideFacts(ctx, inp, areaId, search, latest, Stations.SearchResult(domain, searchReply), found);
    if domain != "" {
      EntryData(input, domain, inp);
    }
  }

  /** The input without `search`, once defaulted with a domain, holds the domain and
      every other key of the input. */
  lemma EntryData(input: Dict, domain: string, inp: Dict)
    requires Typed(input) && domain != "" && inp == Defaulted(input, domain).0
    ensures var d := inp - {"search"};
      && "search" !in d && "domain" in d && d["domain"] == Str(domain)
      && (forall k :: k in input && k != "domain" && k != "search" ==> k in d && d[k] == input[k])
  {
  }

  /** `OptionsFlowHandler.async_step_init(user_input)`, given the entry's data and
      options, what the station request would reply and the host's coordinates: a
      domain in the input is checked with a station lookup by the host's coordinates;
      on success the entry's data takes the input over it. The domain is not cleaned
      here. The form's defaults are the data, then the options, then the input. */
  function OptionsStep(lastError: Option<Tip>, data: Dict, options: Dict, input: Dict,
                       stationReply: Result<Option<Value>>, hostLat: Value, hostLng: Value)
    : (r: (Step, Dict, Option<Tip>))
    requires Typed(input)
  {
    var domain := Get(input, "domain");
    OptionsChecked(lastError, data, options, input,
                   if Truthy(domain) then Some(Stations.StationLookup(domain.s, Null, Null, Null, hostLat, hostLng, stationReply)) else None)
  }

  /** The options step given what the lookup of the input's domain found, `None` when
      the input gives no domain to look up. */
  function OptionsChecked(lastError: Option<Tip>, data: Dict, options: Dict, input: Dict,
                          found: Option<Result<Stations.StationInfo>>): (r: (Step, Dict, Option<Tip>))
  {
    if found.Some? && found.value.Ok? then
      (CreateEntry(Str(""), map[]), data + input, lastError)
    else
      (OptionsForm(if found.Some? then Some(Raised(found.value.error)) else lastError, data, options, input), data, None)
  }

  /** What the options step promises: an entry exactly when a domain is given and its
      station is found, the data then taking the input; otherwise the form, with the
      lookup's error when there was one and the defaults in their order of precedence. */
  lemma OptionsStepFacts(lastError: Option<Tip>, data: Dict, options: Dict, input: Dict,
                         stationReply: Result<Option<Value>>, hostLat: Value, hostLng: Value)
    requires Typed(input)
    ensures var r := OptionsStep(lastError, data, options, input, stationReply, hostLat, hostLng);
      var domain := Get(input, "domain");
      var found := Stations.StationLookup(if domain.Str? then domain.s else "", Null, Null, Null, hostLat, hostLng, stationReply);
      && (r.0.CreateEntry? <==> Truthy(domain) && found.Ok?)
      && (r.0.CreateEntry? ==> r.0 == CreateEntry(Str(""), map[]) && r.1 == data + input && r.2 == lastError)
      && (r.0.ShowForm? ==> r.1 == data && r.2.None?)
      && (Truthy(domain) && found.Err? ==> r.0.ShowForm? && r.0.tip == Raised(found.error))
      && (r.0.ShowForm? && "domain" in input ==> r.0.domain == input["domain"])
      && (r.0.ShowForm? && "domain" !in input && "domain" in options ==> r.0.domain == options["domain"])
      && (r.0.ShowForm? && "domain" !in input && "domain" !in options ==> r.0.domain == Get(data, "domain"))
  {
  }

  /** The options form, with the pending message (or the help text) as its tip; its
      defaults are the data, then the options, then the input. */
  function OptionsForm(last: Option<Tip>, data: Dict, options: Dict, input: Dict): (r: Step)
    ensures r.ShowForm? && r.tip == (if last.Some? then last.value else OptionsHint)
  {
    var defaults := data + options + input;
    ShowForm(Get(defaults, "domain"), None, GetOr(defaults, "caiyun", Bool(false)), if last.Some? then last.value else OptionsHint)
  }

  /** The user step is its decision on the prepared input. */
  lemma UserStepIs(ctx: Context, input: Dict, latest: Value, searchReply: Result<Stations.SearchReply>,
                   stationReply: Result<Option<Value>>, hostLat: Value, hostLng: Value,
                   inp: Dict, areaId: string, domain: string)
    requires Typed(input) && domain == UserDomain(input) && (inp, areaId) == Defaulted(input, domain)
    ensures UserStep(ctx, input, latest, searchReply, stationReply, hostLat, hostLng)
      == UserDecide(ctx, inp, areaId, GetOr(input, "search", Str("")), latest, Stations.SearchResult(domain, searchReply),
                    Stations.StationLookup(domain, Str(areaId), Null, Null, hostLat, hostLng, stationReply))
  {
  }

  /** The start of the user step: the domain is cleaned and, when not empty, written
      back, and an empty area id becomes `auto` (stored only when the input has none). */
  method Prepare(given: Dict) returns (input: Dict, areaId: string, domain: string)
    requires Typed(given)
    ensures domain == UserDomain(given) && (input, areaId) == Defaulted(given, domain)
  {
    input := given;
    var raw := Or(Get(input, "domain"), Str(""));
    areaId := if "area_id" in input then input["area_id"].s else "";
    domain := CleanDomain(if raw.Str? then raw.s else "");
    if domain != "" {
      input := input["domain" := Str(domain)];
      if areaId == "" {
        areaId := "auto";
        if "area_id" !in input {
          input := input["area_id" := Str(areaId)];
        }
      }
    }
  }

  /** The user step's flow, holding its context. */
  class UserFlow {
    var lastError: Option<Tip>
    var station: Option<Stations.StationInfo>
    var uniqueId: Option<Value>

    function View(): Context
      reads this
    {
      Context(lastError, station, uniqueId)
    }

    /** A new flow: nothing in its context. */
    constructor ()
      ensures View() == Context(None, None, None)
    {
      lastError, station, uniqueId := None, None, None;
    }

    /** `async_step_user(user_input)`: `None` stands for the first call without input. */
    method StepUser(userInput: Option<Dict>, latest: Value, searchReply: Result<Stations.SearchReply>,
                    stationReply: Result<Option<Value>>, hostLat: Value, hostLng: Value) returns (r: Result<Step>)
      requires userInput.Some? ==> Typed(userInput.value)
      modifies this
      ensures var input := if userInput.Some? then userInput.value else map[];
        (r, View()) == UserStep(old(View()), input, latest, searchReply, stationReply, hostLat, hostLng)
    {
      var given: Dict := if userInput.Some? then userInput.value else map[];
      var search := GetOr(given, "search", Str(""));
      var input, areaId, domain := Prepare(given);
      UserStepIs(old(View()), given, latest, searchReply, stationReply, hostLat, hostLng, input, areaId, domain);
      if Truthy(search) {
        r := StepSearch(input, areaId, search.s, latest, domain, searchReply);
      } else if areaId != "" {
        r := StepLookup(input, areaId, latest, domain, stationReply, hostLat, hostLng);
      } else {
        r := ShowUserForm(input, latest, None);
      }
    }

    /** The search branch of the user step. */
    method StepSearch(input: Dict, areaId: string, search: string, latest: Value, domain: string,
                      searchReply: Result<Stations.SearchReply>) returns (r: Result<Step>)
      modifies this
      ensures (r, View()) == Searched(old(View()), input, areaId, search, latest, Stations.SearchResult(domain, searchReply))
    {
      var found := Stations.SearchAreas(domain, searchReply);
      if found.Err? {
        return Err(found.error);
      }
      var areas: Option<AreaChoice> := None;
      if found.value != map[] {
        var choices := Choices(found.value);
        areas := Some(AreaChoice(if areaId in choices then Str(areaId) else Str(""), choices));
      } else {
        lastError := Some(NotFound(search));
      }
      r := ShowUserForm(input, latest, areas);
    }

    /** The area-id branch of the user step. */
    method StepLookup(input: Dict, areaId: string, latest: Value, domain: string,
                      stationReply: Result<Option<Value>>, hostLat: Value, hostLng: Value) returns (r: Result<Step>)
      modifies this
      ensures (r, View()) == LookedUp(old(View()), input, areaId, latest,
                                      Stations.StationLookup(domain, Str(areaId), Null, Null, hostLat, hostLng, stationReply))
    {
      uniqueId := Some(Str(areaId));
      var st := Stations.StationLookup(domain, Str(areaId), Null, Null, hostLat, hostLng, stationReply);
      if st.Ok? {
        station := Some(st.value);
        return Ok(CreateEntry(st.value.AreaName(), input - {"search"}));
      }
      lastError := Some(Raised(st.error));
      r := ShowUserForm(input, latest, None);
    }

    /** The end of the user step: the form, with the pending message or the help text. */
    method ShowUserForm(input: Dict, latest: Value, areas: Option<AreaChoice>) returns (r: Result<Step>)
      modifies this
      ensures (r, View()) == Form(old(View()), input, GetOr(input, "domain", latest), areas, UserHint)
    {
      if lastError.None? {
        lastError := Some(UserHint);
      }
      r := Ok(ShowForm(GetOr(input, "domain", latest), areas, GetOr(input, "caiyun", Bool(false)), lastError.value));
      lastError := None;
    }
  }

  /** The options flow of one config entry. */
  class OptionsFlow {
    var data: Dict          // the entry's data, which a successful step replaces
    const options: Dict     // the entry's options
    var lastError: Option<Tip>

    constructor (data: Dict, options: Dict)
      ensures this.data == data && this.options == options && lastError.None?
    {
      this.data, this.options, lastError := data, options, None;
    }

    /** `async_step_init(user_input)`: `None` stands for the first call without input. */
    method StepInit(userInput: Option<Dict>, stationReply: Result<Option<Value>>, hostLat: Value, hostLng: Value)
      returns (r: Step)
      requires userInput.Some? ==> Typed(userInput.value)
      modifies this
      ensures var input := if userInput.Some? then userInput.value else map[];
        (r, data, lastError) == OptionsStep(old(lastError), old(data), options, input, stationReply, hostLat, hostLng)
    {
      var input: Dict := if userInput.Some? then userInput.value else map[];
      var domain := Get(input, "domain");
      var found: Option<Result<Stations.StationInfo>> := None;
      if Truthy(domain) {
        found := Some(Stations.StationLookup(domain.s, Null, Null, Null, hostLat, hostLng, stationReply));
      }
      r := Settle(input, found);
    }

    /** The rest of the step once the lookup, if any, is done. */
    method Settle(input: Dict, found: Option<Result<Stations.StationInfo>>) returns (r: Step)
      modifies this
      ensures (r, data, lastError) == OptionsChecked(old(lastError), old(data), options, input, found)
    {
      if found.Some? {
        if found.value.Ok? {
          data := data + input;
          return CreateEntry(Str(""), map[]);
        }
        lastError := Some(Raised(found.value.error));
      }
      r := ShowOptionsForm(input);
    }

    /** The end of the step: the form, with the pending message or the help text. */
    method ShowOptionsForm(input: Dict) returns (r: Step)
      modifies this
      ensures r == OptionsForm(old(lastError), data, options, input) && lastError.None? && data == old(data)
    {
      if lastError.None? {
        lastError := Some(OptionsHint);
      }
      var defaults := data + options + input;
      r := ShowForm(Get(defaults, "domain"), None, GetOr(defaults, "caiyun", Bool(false)), lastError.value);
      lastError := None;
    }
  }
}
