/** The `cloudflare_waf_groups` data source: it lists the WAF groups of a
    zone's packages (or of one given package), keeps the groups that pass an
    optional name pattern and an optional mode, and stores the kept groups
    with a checksum of their ids as the data source's ID. */
module WafGroups {
  import opened Common

  /** A WAF group as the API client returns it. */
  datatype Group = Group(id: string, name: string, description: string, mode: string,
                         rulesCount: int, modifiedRulesCount: int)

  /** A WAF package; only its id is used. */
  datatype Package = Package(id: string)

  /** One element of the computed `groups` list: the group's fields and the
      id of the package it was listed under. */
  datatype GroupDetail = GroupDetail(id: string, name: string, description: string, mode: string,
                                     rulesCount: int, modifiedRulesCount: int, packageId: string)

  /** A compiled regular expression, known by its source text. */
  datatype Regexp = Regexp(expr: string)

  /** The regular-expression engine, left uninterpreted: which patterns
      compile, and which compiled patterns match which names. */
  datatype RegexEngine = RegexEngine(compiles: string -> bool, matches: (string, string) -> bool)

  /** searchFilterWAFGroups: an optional name pattern and a mode ("" when absent). */
  datatype Filter = Filter(name: Option<Regexp>, mode: string)

  /** The `filter` block as configured: a list of at most one element, which
      may be nil, mapping attribute names to their values. */
  type FilterConfig = seq<Option<map<string, string>>>

  datatype Diagnostic =
    | InvalidPattern(pattern: string)
    | ListFailed(cause: ApiError)
    | SetGroupsFailed

  /** What expandFilterWAFGroups returns for a configuration. */
  function FilterOf(cfg: FilterConfig, compiles: string -> bool): (r: Result<Filter, Diagnostic>)
    ensures |cfg| == 0 || cfg[0].None? ==> r == Ok(Filter(None, ""))
    ensures |cfg| > 0 && cfg[0].Some? ==>
              var m := cfg[0].value;
              if "name" in m && !compiles(m["name"]) then
                r == Err(InvalidPattern(m["name"]))
              else
                && r.Ok?
                && (r.value.name.Some? <==> "name" in m)
                && (r.value.name.Some? ==> r.value.name.value == Regexp(m["name"]))
                && r.value.mode == (if "mode" in m then m["mode"] else "")
  {
    if |cfg| == 0 || cfg[0].None? then
      Ok(Filter(None, ""))
    else
      var m := cfg[0].value;
      if "name" in m && !compiles(m["name"]) then
        Err(InvalidPattern(m["name"]))
      else
        var name := if "name" in m then Some(Regexp(m["name"])) else None;
        var mode := if "mode" in m then m["mode"] else "";
        Ok(Filter(name, mode))
  }

  /** expandFilterWAFGroups: starts from the zero filter and assigns the
      fields the block provides; a pattern that does not compile is an error. */
  method ExpandFilter(cfg: FilterConfig, engine: RegexEngine) returns (r: Result<Filter, Diagnostic>)
    ensures r == FilterOf(cfg, engine.compiles)
  {
    var filter := Filter(None, "");
    if |cfg| == 0 || cfg[0].None? {
      return Ok(filter);
    }
    var m := cfg[0].value;
    if "name" in m {
      if !engine.compiles(m["name"]) {
        return Err(InvalidPattern(m["name"]));
      }
      filter := filter.(name := Some(Regexp(m["name"])));
    }
    if "mode" in m {
      filter := filter.(mode := m["mode"]);
    }
    return Ok(filter);
  }

  /** A group is kept when every criterion the filter holds passes. */
  predicate Keep(f: Filter, g: Group, matches: (string, string) -> bool)
  {
    && (f.name.None? || matches(f.name.value.expr, g.name))
    && (f.mode == "" || f.mode == g.mode)
  }

  /** The record stored for a kept group. */
  function Detail(g: Group, pkgId: string): GroupDetail
  {
    GroupDetail(g.id, g.name, g.description, g.mode, g.rulesCount, g.modifiedRulesCount, pkgId)
  }

  /** The records of the kept groups of one package, in list order. */
  function Kept(f: Filter, gs: seq<Group>, pkgId: string, matches: (string, string) -> bool): (r: seq<GroupDetail>)
    ensures |r| <= |gs|
  {
    if |gs| == 0 then []
    else
      Kept(f, gs[..|gs| - 1], pkgId, matches)
      + (if Keep(f, gs[|gs| - 1], matches) then [Detail(gs[|gs| - 1], pkgId)] else [])
  }

  /** The API client's answers: the packages of a zone, and the groups of a
      package of a zone. */
  datatype Api = Api(packages: string -> Result<seq<Package>, ApiError>,
                     groups: (string, string) -> Result<seq<Group>, ApiError>)

  /** The packages to search: all those of the zone when no package id is
      given, otherwise just the given one. */
  function Packages(zone: string, packageId: string, api: Api): Result<seq<Package>, ApiError>
  {
    if packageId == "" then api.packages(zone) else Ok([Package(packageId)])
  }

  /** The records kept over the packages, in package order; the first group
      list that fails ends the search with its error. */
  function Search(zone: string, pkgs: seq<Package>, f: Filter, api: Api,
                  matches: (string, string) -> bool): Result<seq<GroupDetail>, ApiError>
  {
    if |pkgs| == 0 then Ok([])
    else
      match Search(zone, pkgs[..|pkgs| - 1], f, api, matches)
      case Err(e) => Err(e)
      case Ok(ds) =>
        match api.groups(zone, pkgs[|pkgs| - 1].id)
        case Err(e) => Err(e)
        case Ok(gs) => Ok(ds + Kept(f, gs, pkgs[|pkgs| - 1].id, matches))
  }

  /** The calls made to the API client, in order. */
  datatype Call = ListPackages(zone: string) | ListGroups(zone: string, packageId: string)

  /** The group lists requested by the search: one per package, up to and
      including the first that fails. */
  function GroupCalls(zone: string, pkgs: seq<Package>, f: Filter, api: Api,
                      matches: (string, string) -> bool): (r: seq<Call>)
    ensures |r| <= |pkgs|
  {
    if |pkgs| == 0 then []
    else
      var prior := GroupCalls(zone, pkgs[..|pkgs| - 1], f, api, matches);
      if Search(zone, pkgs[..|pkgs| - 1], f, api, matches).Err? then prior
      else prior + [ListGroups(zone, pkgs[|pkgs| - 1].id)]
  }

  /** The ids of the records, in order. */
  function Ids(ds: seq<GroupDetail>): (r: seq<string>)
    ensures |r| == |ds|
  {
    if |ds| == 0 then [] else Ids(ds[..|ds| - 1]) + [ds[|ds| - 1].id]
  }

  /** The state the data source is left in, and the diagnostic. */
  datatype Outcome = Outcome(groups: seq<GroupDetail>, id: string, diag: Option<Diagnostic>)

  /** dataSourceCloudflareWAFGroupsRead as a function of its inputs: the old
      `groups` and ID, whether the schema refuses the `groups` value, the
      API's answers, the regex engine and the checksum. */
  ghost function ReadSpec(zone: string, packageId: string, cfg: FilterConfig, refuseGroups: bool,
                          groups: seq<GroupDetail>, id: string, api: Api, engine: RegexEngine,
                          checksum: seq<string> -> string): Outcome
  {
    match FilterOf(cfg, engine.compiles)
    case Err(e) => Outcome(groups, id, Some(e))
    case Ok(f) =>
      match Packages(zone, packageId, api)
      case Err(e) => Outcome(groups, id, Some(ListFailed(e)))
      case Ok(pkgs) =>
        match Search(zone, pkgs, f, api, engine.matches)
        case Err(e) => Outcome(groups, id, Some(ListFailed(e)))
        case Ok(ds) =>
          if refuseGroups then Outcome(groups, id, Some(SetGroupsFailed))
          else Outcome(ds, checksum(Ids(ds)), None)
  }

  /** The calls the read makes, in order. */
  ghost function ReadCalls(zone: string, packageId: string, cfg: FilterConfig, api: Api,
                           engine: RegexEngine): seq<Call>
  {
    match FilterOf(cfg, engine.compiles)
    case Err(_) => []
    case Ok(f) =>
      (if packageId == "" then [ListPackages(zone)] else [])
      + match Packages(zone, packageId, api)
        case Err(_) => []
        case Ok(pkgs) => GroupCalls(zone, pkgs, f, api, engine.matches)
  }

  // ---------------------------------------------------------------------
  // Properties of the filter and the search
  // ---------------------------------------------------------------------

  /** With neither a name pattern nor a mode, every group is kept. */
  lemma {:induction false} NoCriteriaKeepsAll(gs: seq<Group>, pkgId: string, matches: (string, string) -> bool)
    ensures |Kept(Filter(None, ""), gs, pkgId, matches)| == |gs|
    ensures forall i :: 0 <= i < |gs| ==> Kept(Filter(None, ""), gs, pkgId, matches)[i] == Detail(gs[i], pkgId)
  {
    if |gs| > 0 {
      NoCriteriaKeepsAll(gs[..|gs| - 1], pkgId, matches);
    }
  }

  /** Filtering a concatenation filters each part, in order. */
  lemma {:induction false} KeptSplit(f: Filter, a: seq<Group>, b: seq<Group>, pkgId: string,
                                     matches: (string, string) -> bool)
    ensures Kept(f, a + b, pkgId, matches) == Kept(f, a, pkgId, matches) + Kept(f, b, pkgId, matches)
    decreases |b|
  {
    if |b| > 0 {
      assert (a + b)[..|a + b| - 1] == a + b[..|b| - 1];
      KeptSplit(f, a, b[..|b| - 1], pkgId, matches);
    } else {
      assert a + b == a;
    }
  }

  /** A record is kept exactly when it is the record of a group of the list
      that passes the filter; every kept record carries the package id. */
  lemma {:induction false} KeptMembers(f: Filter, gs: seq<Group>, pkgId: string,
                                       matches: (string, string) -> bool, d: GroupDetail)
    ensures d in Kept(f, gs, pkgId, matches) <==>
            exists g :: g in gs && Keep(f, g, matches) && d == Detail(g, pkgId)
    ensures d in Kept(f, gs, pkgId, matches) ==> d.packageId == pkgId
  {
    if |gs| > 0 {
      var last := gs[|gs| - 1];
      KeptMembers(f, gs[..|gs| - 1], pkgId, matches, d);
      assert gs == gs[..|gs| - 1] + [last];
      if exists g :: g in gs && Keep(f, g, matches) && d == Detail(g, pkgId) {
        var g :| g in gs && Keep(f, g, matches) && d == Detail(g, pkgId);
        if g != last {
          assert g in gs[..|gs| - 1];
        }
      }
    }
  }

  /** The search over a concatenation of package lists is the search over
      the first, then the search over the second, the first error winning:
      records come out in package order. */
  lemma {:induction false} SearchConcat(zone: string, p: seq<Package>, q: seq<Package>, f: Filter, api: Api,
                                        matches: (string, string) -> bool)
    ensures Search(zone, p + q, f, api, matches) ==
            match Search(zone, p, f, api, matches)
            case Err(e) => Err(e)
            case Ok(a) =>
              match Search(zone, q, f, api, matches)
              case Err(e) => Err(e)
              case Ok(b) => Ok(a + b)
    decreases |q|
  {
    if |q| == 0 {
      assert p + q == p;
      if Search(zone, p, f, api, matches).Ok? {
        var a := Search(zone, p, f, api, matches).value;
        assert a + [] == a;
      }
    } else {
      var init := q[..|q| - 1];
      var last := q[|q| - 1];
      assert (p + q)[..|p + q| - 1] == p + init;
      assert (p + q)[|p + q| - 1] == last;
      SearchConcat(zone, p, init, f, api, matches);
      if Search(zone, p, f, api, matches).Ok? && Search(zone, init, f, api, matches).Ok? {
        var a := Search(zone, p, f, api, matches).value;
        var b := Search(zone, init, f, api, matches).value;
        if api.groups(zone, last.id).Ok? {
          var k := Kept(f, api.groups(zone, last.id).value, last.id, matches);
          assert (a + b) + k == a + (b + k);
        }
      }
    }
  }

  /** One more group: kept or not, as the filter says. */
  lemma KeptStep(f: Filter, gs: seq<Group>, i: nat, pkgId: string, matches: (string, string) -> bool)
    requires i < |gs|
    ensures Kept(f, gs[..i + 1], pkgId, matches) ==
            Kept(f, gs[..i], pkgId, matches) + (if Keep(f, gs[i], matches) then [Detail(gs[i], pkgId)] else [])
  {
    assert gs[..i + 1][..i] == gs[..i];
  }

  /** Appending a record appends its id. */
  lemma IdsAppend(ds: seq<GroupDetail>, d: GroupDetail)
    ensures Ids(ds + [d]) == Ids(ds) + [d.id]
  {
    assert (ds + [d])[..|ds|] == ds;
  }

  /** Once a group list fails, the search has failed with that error and
      requests nothing more. */
  lemma {:induction false} ErrorStops(zone: string, pkgs: seq<Package>, k: nat, f: Filter, api: Api,
                                      matches: (string, string) -> bool)
    requires k <= |pkgs| && Search(zone, pkgs[..k], f, api, matches).Err?
    ensures Search(zone, pkgs, f, api, matches) == Search(zone, pkgs[..k], f, api, matches)
    ensures GroupCalls(zone, pkgs, f, api, matches) == GroupCalls(zone, pkgs[..k], f, api, matches)
    decreases |pkgs|
  {
    if k == |pkgs| {
      assert pkgs[..k] == pkgs;
    } else {
      assert pkgs[..|pkgs| - 1][..k] == pkgs[..k];
      ErrorStops(zone, pkgs[..|pkgs| - 1], k, f, api, matches);
    }
  }

  /** A package whose group list fails ends the search with that error,
      after its own list call. */
  lemma FailingPackage(zone: string, pkgs: seq<Package>, p: nat, f: Filter, api: Api,
                       matches: (string, string) -> bool)
    requires p < |pkgs| && Search(zone, pkgs[..p], f, api, matches).Ok?
    requires api.groups(zone, pkgs[p].id).Err?
    ensures Search(zone, pkgs, f, api, matches) == Err(api.groups(zone, pkgs[p].id).error)
    ensures GroupCalls(zone, pkgs, f, api, matches) ==
            GroupCalls(zone, pkgs[..p], f, api, matches) + [ListGroups(zone, pkgs[p].id)]
  {
    assert pkgs[..p + 1][..p] == pkgs[..p];
    ErrorStops(zone, pkgs, p + 1, f, api, matches);
  }

  /** A package whose group list succeeds appends its kept records, after
      its own list call. */
  lemma PackageStep(zone: string, pkgs: seq<Package>, p: nat, f: Filter, api: Api,
                    matches: (string, string) -> bool)
    requires p < |pkgs| && Search(zone, pkgs[..p], f, api, matches).Ok?
    requires api.groups(zone, pkgs[p].id).Ok?
    ensures Search(zone, pkgs[..p + 1], f, api, matches) ==
            Ok(Search(zone, pkgs[..p], f, api, matches).value
               + Kept(f, api.groups(zone, pkgs[p].id).value, pkgs[p].id, matches))
    ensures GroupCalls(zone, pkgs[..p + 1], f, api, matches) ==
            GroupCalls(zone, pkgs[..p], f, api, matches) + [ListGroups(zone, pkgs[p].id)]
  {
    assert pkgs[..p + 1][..p] == pkgs[..p];
  }

  /** A search that succeeds holds, for each package in order, the records
      kept from that package's groups. */
  lemma {:induction false} SearchByPackage(zone: string, pkgs: seq<Package>, f: Filter, api: Api,
                                           matches: (string, string) -> bool)
    requires Search(zone, pkgs, f, api, matches).Ok?
    ensures forall i :: 0 <= i < |pkgs| ==> api.groups(zone, pkgs[i].id).Ok?
    ensures |pkgs| > 0 ==>
              Search(zone, pkgs, f, api, matches).value ==
              Search(zone, pkgs[..|pkgs| - 1], f, api, matches).value
              + Kept(f, api.groups(zone, pkgs[|pkgs| - 1].id).value, pkgs[|pkgs| - 1].id, matches)
  {
    if |pkgs| > 0 {
      var init := pkgs[..|pkgs| - 1];
      SearchByPackage(zone, init, f, api, matches);
      forall i | 0 <= i < |pkgs| ensures api.groups(zone, pkgs[i].id).Ok? {
        if i < |pkgs| - 1 {
          assert pkgs[i] == init[i];
        }
      }
    }
  }

  /** Every record of a successful search carries the id of one of the
      searched packages, and comes from a group of that package's list that
      passes the filter; conversely every such group's record is there. */
  lemma {:induction false} SearchMembers(zone: string, pkgs: seq<Package>, f: Filter, api: Api,
                                         matches: (string, string) -> bool, d: GroupDetail)
    requires Search(zone, pkgs, f, api, matches).Ok?
    ensures forall i :: 0 <= i < |pkgs| ==> api.groups(zone, pkgs[i].id).Ok?
    ensures d in Search(zone, pkgs, f, api, matches).value <==>
            exists i :: 0 <= i < |pkgs| && d in Kept(f, api.groups(zone, pkgs[i].id).value, pkgs[i].id, matches)
  {
    SearchByPackage(zone, pkgs, f, api, matches);
    if |pkgs| > 0 {
      var init := pkgs[..|pkgs| - 1];
      var n := |pkgs| - 1;
      SearchMembers(zone, init, f, api, matches, d);
      if exists i :: 0 <= i < |pkgs| && d in Kept(f, api.groups(zone, pkgs[i].id).value, pkgs[i].id, matches) {
        var i :| 0 <= i < |pkgs| && d in Kept(f, api.groups(zone, pkgs[i].id).value, pkgs[i].id, matches);
        if i < n {
          assert init[i] == pkgs[i];
        }
      }
      if d in Search(zone, init, f, api, matches).value {
        var i :| 0 <= i < |init| && d in Kept(f, api.groups(zone, init[i].id).value, init[i].id, matches);
        assert init[i] == pkgs[i];
      }
    }
  }

  /** The ids list and the records grow in step: same length, and the i-th
      id is the id of the i-th record. */
  lemma {:induction false} IdsLockstep(ds: seq<GroupDetail>)
    ensures |Ids(ds)| == |ds|
    ensures forall i :: 0 <= i < |ds| ==> Ids(ds)[i] == ds[i].id
  {
    if |ds| > 0 {
      IdsLockstep(ds[..|ds| - 1]);
    }
  }

  /** A successful search requests each package's groups once, in package
      order. */
  lemma {:induction false} GroupCallsInOrder(zone: string, pkgs: seq<Package>, f: Filter, api: Api,
                                             matches: (string, string) -> bool)
    requires Search(zone, pkgs, f, api, matches).Ok?
    ensures |GroupCalls(zone, pkgs, f, api, matches)| == |pkgs|
    ensures forall i :: 0 <= i < |pkgs| ==> GroupCalls(zone, pkgs, f, api, matches)[i] == ListGroups(zone, pkgs[i].id)
  {
    if |pkgs| > 0 {
      var init := pkgs[..|pkgs| - 1];
      GroupCallsInOrder(zone, init, f, api, matches);
      forall i | 0 <= i < |pkgs| - 1
        ensures GroupCalls(zone, pkgs, f, api, matches)[i] == ListGroups(zone, pkgs[i].id)
      {
        assert init[i] == pkgs[i];
      }
    }
  }

  // ---------------------------------------------------------------------
  // Properties of the read
  // ---------------------------------------------------------------------

  /** A pattern that does not compile is reported before any API call, and
      leaves the state as it was. */
  lemma PatternErrorComesFirst(zone: string, packageId: string, cfg: FilterConfig, refuseGroups: bool,
                               groups: seq<GroupDetail>, id: string, api: Api, engine: RegexEngine,
                               checksum: seq<string> -> string)
    requires |cfg| > 0 && cfg[0].Some? && "name" in cfg[0].value
    requires !engine.compiles(cfg[0].value["name"])
    ensures ReadCalls(zone, packageId, cfg, api, engine) == []
    ensures ReadSpec(zone, packageId, cfg, refuseGroups, groups, id, api, engine, checksum)
            == Outcome(groups, id, Some(InvalidPattern(cfg[0].value["name"])))
  {
  }

  /** Every failure leaves `groups` and the ID as they were. */
  lemma FailureLeavesState(zone: string, packageId: string, cfg: FilterConfig, refuseGroups: bool,
                           groups: seq<GroupDetail>, id: string, api: Api, engine: RegexEngine,
                           checksum: seq<string> -> string)
    ensures var o := ReadSpec(zone, packageId, cfg, refuseGroups, groups, id, api, engine, checksum);
            o.diag.Some? ==> o.groups == groups && o.id == id
  {
  }

  /** With a package id, exactly that package's groups are requested, and
      the result is its kept groups. */
  lemma OnePackageSearched(zone: string, packageId: string, cfg: FilterConfig, refuseGroups: bool,
                           groups: seq<GroupDetail>, id: string, api: Api, engine: RegexEngine,
                           checksum: seq<string> -> string)
    requires packageId != "" && FilterOf(cfg, engine.compiles).Ok?
    ensures ReadCalls(zone, packageId, cfg, api, engine) == [ListGroups(zone, packageId)]
    ensures var o := ReadSpec(zone, packageId, cfg, refuseGroups, groups, id, api, engine, checksum);
            api.groups(zone, packageId).Err? ==> o.diag == Some(ListFailed(api.groups(zone, packageId).error))
    ensures var o := ReadSpec(zone, packageId, cfg, refuseGroups, groups, id, api, engine, checksum);
            var f := FilterOf(cfg, engine.compiles).value;
            api.groups(zone, packageId).Ok? ==>
              (o.diag.None? <==> !refuseGroups) &&
              (o.diag.None? ==> o.groups == Kept(f, api.groups(zone, packageId).value, packageId, engine.matches))
  {
    var pkgs := [Package(packageId)];
    var f := FilterOf(cfg, engine.compiles).value;
    assert pkgs[..0] == [];
    assert Search(zone, pkgs, f, api, engine.matches) ==
           match api.groups(zone, packageId)
           case Err(e) => Err(e)
           case Ok(gs) => Ok([] + Kept(f, gs, packageId, engine.matches));
    assert GroupCalls(zone, pkgs, f, api, engine.matches) == [ListGroups(zone, packageId)];
  }

  /** Without a package id, the zone's packages are listed first, then each
      package's groups once, in package order; a read without diagnostic
      stores the records of the search over all of them. */
  lemma AllPackagesSearched(zone: string, cfg: FilterConfig, refuseGroups: bool,
                            groups: seq<GroupDetail>, id: string, api: Api, engine: RegexEngine,
                            checksum: seq<string> -> string, pkgs: seq<Package>)
    requires FilterOf(cfg, engine.compiles).Ok? && api.packages(zone) == Ok(pkgs)
    requires Search(zone, pkgs, FilterOf(cfg, engine.compiles).value, api, engine.matches).Ok?
    ensures var calls := ReadCalls(zone, "", cfg, api, engine);
            && |calls| == |pkgs| + 1 && calls[0] == ListPackages(zone)
            && forall i :: 0 <= i < |pkgs| ==> calls[i + 1] == ListGroups(zone, pkgs[i].id)
    ensures var o := ReadSpec(zone, "", cfg, refuseGroups, groups, id, api, engine, checksum);
            var f := FilterOf(cfg, engine.compiles).value;
            && (o.diag.None? <==> !refuseGroups)
            && (o.diag.None? ==> o.groups == Search(zone, pkgs, f, api, engine.matches).value)
  {
    GroupCallsInOrder(zone, pkgs, FilterOf(cfg, engine.compiles).value, api, engine.matches);
  }

  /** Without a package id, a failing package list is reported after that
      one call, and no group list is requested. */
  lemma PackageListFailure(zone: string, cfg: FilterConfig, refuseGroups: bool,
                           groups: seq<GroupDetail>, id: string, api: Api, engine: RegexEngine,
                           checksum: seq<string> -> string)
    requires FilterOf(cfg, engine.compiles).Ok? && api.packages(zone).Err?
    ensures ReadCalls(zone, "", cfg, api, engine) == [ListPackages(zone)]
    ensures ReadSpec(zone, "", cfg, refuseGroups, groups, id, api, engine, checksum)
            == Outcome(groups, id, Some(ListFailed(api.packages(zone).error)))
  {
  }

  /** A successful read stores the records with the checksum of their ids
      as the ID; the ID depends on nothing else. */
  lemma SuccessStoresChecksum(zone: string, packageId: string, cfg: FilterConfig, refuseGroups: bool,
                              groups: seq<GroupDetail>, id: string, api: Api, engine: RegexEngine,
                              checksum: seq<string> -> string)
    ensures var o := ReadSpec(zone, packageId, cfg, refuseGroups, groups, id, api, engine, checksum);
            o.diag.None? ==> !refuseGroups && o.id == checksum(Ids(o.groups))
  {
  }

  /** The example of a `^bot` pattern with mode "on" over three groups: only
      the first group is kept. */
  lemma {:induction false} BotExample(engine: RegexEngine, a: Group, b: Group, c: Group, pkgId: string)
    requires engine.compiles("^bot")
    requires a.name == "bot-detect" && a.mode == "on"
    requires b.name == "bot-detect" && b.mode == "off"
    requires c.name == "sql-inject" && c.mode == "on"
    requires engine.matches("^bot", "bot-detect") && !engine.matches("^bot", "sql-inject")
    ensures var cfg: FilterConfig := [Some(map["name" := "^bot", "mode" := "on"])];
            var f := FilterOf(cfg, engine.compiles);
            f.Ok? && Kept(f.value, [a, b, c], pkgId, engine.matches) == [Detail(a, pkgId)]
  {
    var cfg: FilterConfig := [Some(map["name" := "^bot", "mode" := "on"])];
    var f := FilterOf(cfg, engine.compiles).value;
    assert f == Filter(Some(Regexp("^bot")), "on");
    assert Keep(f, a, engine.matches) && !Keep(f, b, engine.matches) && !Keep(f, c, engine.matches);
    assert [a][..0] == [];
    assert Kept(f, [a], pkgId, engine.matches) == [Detail(a, pkgId)];
    assert [a, b][..1] == [a];
    assert Kept(f, [a, b], pkgId, engine.matches) == [Detail(a, pkgId)];
    assert [a, b, c][..2] == [a, b];
  }

  // ---------------------------------------------------------------------
  // The state and the client
  // ---------------------------------------------------------------------

  /** The slice of schema.ResourceData the data source uses. */
  class WafGroupsData {
    const zoneId: string
    const packageId: string
    const filterConfig: FilterConfig
    /** Whether the schema refuses the computed `groups` value. */
    const refuseGroups: bool
    var groups: seq<GroupDetail>
    var id: string

    constructor (zoneId: string, packageId: string, filterConfig: FilterConfig, refuseGroups: bool)
      ensures this.zoneId == zoneId && this.packageId == packageId
      ensures this.filterConfig == filterConfig && this.refuseGroups == refuseGroups
      ensures groups == [] && id == ""
    {
      this.zoneId := zoneId;
      this.packageId := packageId;
      this.filterConfig := filterConfig;
      this.refuseGroups := refuseGroups;
      groups := [];
      id := "";
    }

    /** ResourceData.Set("groups", ...). */
    method SetGroups(v: seq<GroupDetail>) returns (ok: bool)
      modifies this`groups
      ensures ok <==> !refuseGroups
      ensures groups == if ok then v else old(groups)
    {
      ok := !refuseGroups;
      if ok {
        groups := v;
      }
    }

    method SetId(v: string)
      modifies this`id
      ensures id == v
    {
      id := v;
    }
  }

  /** The API client: its answers are inputs, and it records every call. */
  class Client {
    const api: Api
    var log: seq<Call>

    constructor (api: Api)
      ensures this.api == api && log == []
    {
      this.api := api;
      log := [];
    }

    method ListWAFPackages(zone: string) returns (r: Result<seq<Package>, ApiError>)
      modifies this`log
      ensures log == old(log) + [ListPackages(zone)] && r == api.packages(zone)
    {
      log := log + [ListPackages(zone)];
      r := api.packages(zone);
    }

    method ListWAFGroups(zone: string, packageId: string) returns (r: Result<seq<Group>, ApiError>)
      modifies this`log
      ensures log == old(log) + [ListGroups(zone, packageId)] && r == api.groups(zone, packageId)
    {
      log := log + [ListGroups(zone, packageId)];
      r := api.groups(zone, packageId);
    }
  }

  /** The inner loop of the read: appends, for each group of one package's
      list in order, the record and the id of the group when it passes the
      filter. */
  method AppendKept(filter: Filter, gs: seq<Group>, pkgId: string, engine: RegexEngine,
                    details: seq<GroupDetail>, ids: seq<string>)
    returns (groupDetails: seq<GroupDetail>, groupIds: seq<string>)
    requires ids == Ids(details)
    ensures groupDetails == details + Kept(filter, gs, pkgId, engine.matches)
    ensures groupIds == Ids(groupDetails)
  {
    groupDetails, groupIds := details, ids;
    for i := 0 to |gs|
      invariant groupDetails == details + Kept(filter, gs[..i], pkgId, engine.matches)
      invariant groupIds == Ids(groupDetails)
    {
      var group := gs[i];
      KeptStep(filter, gs, i, pkgId, engine.matches);
      if filter.name.Some? && !engine.matches(filter.name.value.expr, group.name) {
        continue;
      }
      if filter.mode != "" && filter.mode != group.mode {
        continue;
      }
      var detail := Detail(group, pkgId);
      IdsAppend(groupDetails, detail);
      groupDetails := groupDetails + [detail];
      groupIds := groupIds + [group.id];
    }
    assert gs[..|gs|] == gs;
  }

  /** The outer loop of the read: for each package in order, list its
      groups and append the records and ids of those that pass the filter;
      the first list that fails ends the loop. */
  method SearchGroups(client: Client, zone: string, pkgList: seq<Package>, filter: Filter, engine: RegexEngine)
    returns (r: Result<seq<GroupDetail>, ApiError>, groupIds: seq<string>)
    modifies client`log
    ensures client.log == old(client.log) + GroupCalls(zone, pkgList, filter, client.api, engine.matches)
    ensures r == Search(zone, pkgList, filter, client.api, engine.matches)
    ensures r.Ok? ==> groupIds == Ids(r.value)
  {
    var api := client.api;
    ghost var before := client.log;

    groupIds := [];
    var groupDetails: seq<GroupDetail> := [];
    for p := 0 to |pkgList|
      invariant Search(zone, pkgList[..p], filter, api, engine.matches) == Ok(groupDetails)
      invariant groupIds == Ids(groupDetails)
      invariant client.log == before + GroupCalls(zone, pkgList[..p], filter, api, engine.matches)
    {
      var pkg := pkgList[p];
      var groupList := client.ListWAFGroups(zone, pkg.id);
      if groupList.Err? {
        FailingPackage(zone, pkgList, p, filter, api, engine.matches);
        return Err(groupList.error), groupIds;
      }
      PackageStep(zone, pkgList, p, filter, api, engine.matches);
      var gs := groupList.value;
      groupDetails, groupIds := AppendKept(filter, gs, pkg.id, engine, groupDetails, groupIds);
    }
    assert pkgList[..|pkgList|] == pkgList;

    return Ok(groupDetails), groupIds;
  }

  /** dataSourceCloudflareWAFGroupsRead. */
  method Read(d: WafGroupsData, client: Client, engine: RegexEngine, checksum: seq<string> -> string)
    returns (diag: Option<Diagnostic>)
    modifies d, client`log
    ensures client.log == old(client.log) + ReadCalls(d.zoneId, d.packageId, d.filterConfig, client.api, engine)
    ensures Outcome(d.groups, d.id, diag) ==
            ReadSpec(d.zoneId, d.packageId, d.filterConfig, d.refuseGroups, old(d.groups), old(d.id),
                     client.api, engine, checksum)
  {
    var zone := d.zoneId;
    var api := client.api;
    var expanded := ExpandFilter(d.filterConfig, engine);
    if expanded.Err? {
      return Some(expanded.error);
    }
    var filter := expanded.value;

    var pkgList: seq<Package>;
    if d.packageId == "" {
      var listed := client.ListWAFPackages(zone);
      if listed.Err? {
        return Some(ListFailed(listed.error));
      }
      pkgList := listed.value;
    } else {
      pkgList := [Package(d.packageId)];
    }
    assert Packages(zone, d.packageId, api) == Ok(pkgList);
    var found, groupIds := SearchGroups(client, zone, pkgList, filter, engine);
    if found.Err? {
      return Some(ListFailed(found.error));
    }
    var groupDetails := found.value;
    var ok := d.SetGroups(groupDetails);
    if !ok {
      return Some(SetGroupsFailed);
    }
    d.SetId(checksum(groupIds));
    return None;
  }
}
