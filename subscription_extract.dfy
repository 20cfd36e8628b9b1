/** `get_datazone_subscription_details_csv`: resolving the approver project by
    name, paging through its subscriptions and flattening each one, with its
    asset filters and the identities that requested and last updated it, into a
    13-column CSV row. The catalog's answers are the data in a `Catalog`; the CSV
    file is the sequence of lines written to it. */
module SubscriptionExtract {
  import opened Common
  import opened KeyPath
  import opened Catalog

  /** The fieldnames of the CSV writer, in column order. */
  const Header: seq<string> := [
    "Datazone Asset Name", "Asset System Name", "Subscription ID", "Subscriber Project",
    "Subscription Status", "Subscription Request ID", "Created At", "Created By",
    "Updated At", "Updated By", "filter_name", "filter_columns", "filter_row_expression"]

  /** `filter_name`: the string 'Full Access', or the list of filter names. */
  datatype FilterNameCell = FullAccess | Names(names: seq<string>)

  /** One subscription row. `filterColumns` starts as `[]` and
      `filterRowExpression` as the empty list `List([])`. */
  datatype Row = Row(
    datazoneAssetName: string,
    assetSystemName: string,
    subscriptionId: string,
    subscriberProject: string,
    subscriptionStatus: string,
    subscriptionRequestId: string,
    createdAt: string,
    createdBy: string,
    updatedAt: string,
    updatedBy: string,
    filterName: FilterNameCell,
    filterColumns: seq<string>,
    filterRowExpression: Value)

  /** A line the CSV writer has written: the header or a subscription row. */
  datatype CsvLine = HeaderLine | DataRow(row: Row)

  /** The keys of the row `{'Asset Name': '', 'Filters': ''}` written for a page
      while no subscription has been seen. */
  const PlaceholderKeys: set<string> := {"Asset Name", "Filters"}

  /** `csv.DictWriter.writerow` with the default `extrasaction='raise'`: a
      dictionary with keys outside the fieldnames is rejected with a ValueError
      naming them, and nothing is written. */
  function WriterRejects(keys: set<string>): (rejected: set<string>)
    ensures rejected <= keys
    ensures forall k :: k in keys ==> (k in rejected <==> k !in Header)
  {
    set k | k in keys && k !in Header
  }

  function StrList(items: seq<string>): Value {
    List(seq(|items|, k requires 0 <= k < |items| => Str(items[k])))
  }

  /** The value a subscription row holds under the fieldname `name`. */
  function Cell(row: Row, name: string): Value {
    if name == "Datazone Asset Name" then Str(row.datazoneAssetName)
    else if name == "Asset System Name" then Str(row.assetSystemName)
    else if name == "Subscription ID" then Str(row.subscriptionId)
    else if name == "Subscriber Project" then Str(row.subscriberProject)
    else if name == "Subscription Status" then Str(row.subscriptionStatus)
    else if name == "Subscription Request ID" then Str(row.subscriptionRequestId)
    else if name == "Created At" then Str(row.createdAt)
    else if name == "Created By" then Str(row.createdBy)
    else if name == "Updated At" then Str(row.updatedAt)
    else if name == "Updated By" then Str(row.updatedBy)
    else if name == "filter_name" then (if row.filterName.FullAccess? then Str("Full Access") else StrList(row.filterName.names))
    else if name == "filter_columns" then StrList(row.filterColumns)
    else row.filterRowExpression
  }

  /** The `row` dictionary handed to the writer for a subscription. */
  function RowDict(row: Row): (cells: map<string, Value>)
    ensures forall k :: k in cells <==> k in Header
    ensures cells["Subscription ID"] == Str(row.subscriptionId)
    ensures cells["filter_name"] == if row.filterName.FullAccess? then Str("Full Access") else StrList(row.filterName.names)
  {
    assert Header[2] == "Subscription ID" && Header[10] == "filter_name";
    map k | k in Header :: Cell(row, k)
  }

  /** A subscription row's keys are all fieldnames, so the writer accepts it. */
  lemma RowAccepted(row: Row)
    ensures WriterRejects(RowDict(row).Keys) == {}
  {
    var cells := RowDict(row);
    assert forall k :: k in cells.Keys ==> k in Header;
  }

  /** Neither placeholder key is a fieldname: the writer rejects both. */
  lemma PlaceholderRejected()
    ensures WriterRejects(PlaceholderKeys) == PlaceholderKeys
  {
    assert "Asset Name" !in Header;
    assert "Filters" !in Header;
  }

  // ---------------------------------------------------------------- projects

  /** The `{x: project[x] for x in ['name', 'id']}` projection of a project. */
  datatype NameId = NameId(name: string, id: string)

  function NameIds(projects: seq<ProjectSummary>): seq<NameId> {
    seq(|projects|, i requires 0 <= i < |projects| => NameId(projects[i].name, projects[i].id))
  }

  /** Every project of every `list_projects` page, in page order. */
  method CollectProjects(pages: seq<seq<ProjectSummary>>) returns (projects: seq<ProjectSummary>)
    ensures projects == Concat(pages)
  {
    projects := [];
    var p := 0;
    while p < |pages|
      invariant 0 <= p <= |pages|
      invariant projects == Concat(pages[..p])
    {
      projects := projects + pages[p];
      assert pages[..p + 1][..p] == pages[..p];
      p := p + 1;
    }
    assert pages[..p] == pages;
  }

  /** `dict2`: the name and id of each project, same length and order. */
  method ProjectNameIds(projects: seq<ProjectSummary>) returns (dict2: seq<NameId>)
    ensures |dict2| == |projects|
    ensures forall i :: 0 <= i < |projects| ==> dict2[i] == NameId(projects[i].name, projects[i].id)
  {
    dict2 := [];
    for i := 0 to |projects|
      invariant |dict2| == i
      invariant forall k :: 0 <= k < i ==> dict2[k] == NameId(projects[k].name, projects[k].id)
    {
      dict2 := dict2 + [NameId(projects[i].name, projects[i].id)];
    }
  }

  /** For each project, the id it would assign to `selected_value`. */
  function Candidates(dict2: seq<NameId>, name: string): seq<Option<string>> {
    seq(|dict2|, i requires 0 <= i < |dict2| => if dict2[i].name == name then Some(dict2[i].id) else None)
  }

  /** The loop over `dict2` without a `break`: every match overwrites
      `selected_value`; `None` stands for the variable never being bound. */
  method ResolveProjectId(dict2: seq<NameId>, name: string) returns (selected: Option<string>)
    ensures selected == LastSome(Candidates(dict2, name))
  {
    selected := None;
    for i := 0 to |dict2|
      invariant selected == LastSome(Candidates(dict2[..i], name))
    {
      assert Candidates(dict2[..i + 1], name)[..i] == Candidates(dict2[..i], name);
      if dict2[i].name == name {
        selected := Some(dict2[i].id);
      }
    }
    assert dict2[..|dict2|] == dict2;
  }

  /** The project id the handler goes on with, if `selected_value` was bound. */
  function ResolvedProject(cat: Catalog, projectName: string): Option<string> {
    LastSome(Candidates(NameIds(Concat(cat.projectPages)), projectName))
  }

  // ---------------------------------------------------------- one subscription

  /** `created_by_name` and `updated_by_name`: function-level locals that keep
      their values from one subscription to the next; `None` while unbound. */
  datatype Identities = Identities(createdBy: Option<string>, updatedBy: Option<string>)

  /** The locals the per-filter loop updates. */
  datatype FilterState = FilterState(
    names: seq<string>, columns: seq<string>, rowExpression: Value, ids: Identities)

  datatype FilterFold = Folding(state: FilterState) | FoldStopped(exc: Exc)

  /** One iteration of the per-filter loop: fetch the filter, append its name,
      overwrite the columns and the row expression when the filter carries them,
      and look up the requester's and the last updater's IAM ARNs. */
  function FilterStep(cat: Catalog, d: SubscriptionDetail, assetId: string, filterId: string,
                      st: FilterState): FilterFold
  {
    if (assetId, filterId) !in cat.filters then FoldStopped(ClientError("GetAssetFilter"))
    else
      var f := cat.filters[(assetId, filterId)];
      if d.requestId !in cat.requests then FoldStopped(ClientError("GetSubscriptionRequestDetails"))
      else match IamArn(cat, cat.requests[d.requestId])
        case Raised(e) => FoldStopped(e)
        case Returned(createdBy) =>
          match IamArn(cat, d.updatedBy)
          case Raised(e) => FoldStopped(e)
          case Returned(updatedBy) =>
            Folding(FilterState(
              st.names + [f.name],
              f.effectiveColumnNames.GetOr(st.columns),
              f.effectiveRowFilter.GetOr(st.rowExpression),
              Identities(Some(createdBy), Some(updatedBy))))
  }

  /** The per-filter loop over `filterIds`, in order, stopping at the first exception. */
  function FoldFilters(cat: Catalog, d: SubscriptionDetail, assetId: string, filterIds: seq<string>,
                       init: FilterState): FilterFold
  {
    if filterIds == [] then Folding(init)
    else match FoldFilters(cat, d, assetId, filterIds[..|filterIds| - 1], init)
      case FoldStopped(e) => FoldStopped(e)
      case Folding(st) => FilterStep(cat, d, assetId, filterIds[|filterIds| - 1], st)
  }

  /** Once the filter loop has raised, later filter ids change nothing. */
  lemma {:induction false} FoldStoppedPersists(cat: Catalog, d: SubscriptionDetail, assetId: string,
                                               filterIds: seq<string>, init: FilterState, k: nat)
    requires k <= |filterIds|
    requires FoldFilters(cat, d, assetId, filterIds[..k], init).FoldStopped?
    ensures FoldFilters(cat, d, assetId, filterIds, init) == FoldFilters(cat, d, assetId, filterIds[..k], init)
    decreases |filterIds| - k
  {
    if k < |filterIds| {
      assert filterIds[..k + 1][..k] == filterIds[..k];
      FoldStoppedPersists(cat, d, assetId, filterIds, init, k + 1);
    } else {
      assert filterIds[..k] == filterIds;
    }
  }

  /** One more filter id: the fold so far, then one filter step. */
  lemma FoldFiltersNext(cat: Catalog, d: SubscriptionDetail, assetId: string, filterIds: seq<string>,
                        init: FilterState, k: nat, st: FilterState)
    requires k < |filterIds|
    requires FoldFilters(cat, d, assetId, filterIds[..k], init) == Folding(st)
    ensures FoldFilters(cat, d, assetId, filterIds[..k + 1], init) == FilterStep(cat, d, assetId, filterIds[k], st)
  {
    assert filterIds[..k + 1][..k] == filterIds[..k];
  }

  /** What processing one subscription produces: a row and the identities it
      leaves behind, or the exception that ends the extraction. */
  datatype StepResult = Emit(row: Row, ids: Identities) | Fail(exc: Exc)

  /** The filter ids whose filters are looked up: none without an access scope. */
  function ScopeFilterIds(d: SubscriptionDetail): seq<string> {
    if d.assetScope.Some? then d.assetScope.value else []
  }

  function InitialFilterState(ids: Identities): FilterState {
    FilterState([], [], List([]), ids)
  }

  /** The body of `for subscription in subscriptions` for one subscription id. */
  function SubscriptionStep(cat: Catalog, fmt: Timestamp -> string, subscriptionId: string,
                            ids: Identities): StepResult
  {
    if subscriptionId !in cat.subscriptions then Fail(ClientError("GetSubscription"))
    else
      var d := cat.subscriptions[subscriptionId];
      if d.assetId !in cat.assets then Fail(ClientError("GetAsset"))
      else match FoldFilters(cat, d, d.assetId, ScopeFilterIds(d), InitialFilterState(ids))
        case FoldStopped(e) => Fail(e)
        case Folding(st) =>
          if st.ids.createdBy.None? then Fail(UnboundLocalError("created_by_name"))
          else if st.ids.updatedBy.None? then Fail(UnboundLocalError("updated_by_name"))
          else Emit(Row(
            d.listingName,
            cat.assets[d.assetId].externalIdentifier,
            subscriptionId,
            d.subscriberProject,
            d.status,
            d.requestId,
            fmt(d.createdAt),
            st.ids.createdBy.value,
            fmt(d.updatedAt),
            st.ids.updatedBy.value,
            if d.assetScope.Some? then Names(st.names) else FullAccess,
            st.columns,
            st.rowExpression), st.ids)
  }

  /** One pass of the per-filter loop: `get_asset_filter`, the name and the
      effective fields, then `get_subscription_request_details` and the two
      `get_user_profile` lookups. */
  method FetchFilter(cat: Catalog, d: SubscriptionDetail, assetId: string, filterId: string, st: FilterState)
    returns (fold: FilterFold)
    ensures fold == FilterStep(cat, d, assetId, filterId, st)
  {
    if (assetId, filterId) !in cat.filters {
      return FoldStopped(ClientError("GetAssetFilter"));
    }
    var filterDetails := cat.filters[(assetId, filterId)];
    var filterName := st.names + [filterDetails.name];
    var filterColumns, filterRowExpression := st.columns, st.rowExpression;
    if filterDetails.effectiveColumnNames.Some? {
      filterColumns := filterDetails.effectiveColumnNames.value;
    }
    if filterDetails.effectiveRowFilter.Some? {
      filterRowExpression := filterDetails.effectiveRowFilter.value;
    }
    if d.requestId !in cat.requests {
      return FoldStopped(ClientError("GetSubscriptionRequestDetails"));
    }
    var createById := cat.requests[d.requestId];
    var createdProfile := IamArn(cat, createById);
    if createdProfile.Raised? {
      return FoldStopped(createdProfile.exc);
    }
    var updatedProfile := IamArn(cat, d.updatedBy);
    if updatedProfile.Raised? {
      return FoldStopped(updatedProfile.exc);
    }
    var ids := Identities(Some(createdProfile.value), Some(updatedProfile.value));
    return Folding(FilterState(filterName, filterColumns, filterRowExpression, ids));
  }

  /** `for filter in filters`, stopping at the first exception. */
  method FetchFilters(cat: Catalog, d: SubscriptionDetail, assetId: string, filters: seq<string>, init: FilterState)
    returns (fold: FilterFold)
    ensures fold == FoldFilters(cat, d, assetId, filters, init)
  {
    var st := init;
    for k := 0 to |filters|
      invariant FoldFilters(cat, d, assetId, filters[..k], init) == Folding(st)
    {
      FoldFiltersNext(cat, d, assetId, filters, init, k, st);
      fold := FetchFilter(cat, d, assetId, filters[k], st);
      if fold.FoldStopped? {
        FoldStoppedPersists(cat, d, assetId, filters, init, k + 1);
        return;
      }
      st := fold.state;
    }
    assert filters[..|filters|] == filters;
    return Folding(st);
  }

  /** Fetches a subscription and its asset, probes the access scope with
      `keys_exists`, folds the scope's filters and builds the row. */
  method ProcessSubscription(cat: Catalog, fmt: Timestamp -> string, subscriptionId: string,
                             ids: Identities) returns (step: StepResult)
    ensures step == SubscriptionStep(cat, fmt, subscriptionId, ids)
  {
    if subscriptionId !in cat.subscriptions {
      return Fail(ClientError("GetSubscription"));
    }
    var details := cat.subscriptions[subscriptionId];
    var assetId := details.assetId;
    if assetId !in cat.assets {
      return Fail(ClientError("GetAsset"));
    }
    var assetSystemName := cat.assets[assetId].externalIdentifier;
    var filters: seq<string> := [];
    var fullAccess := false;

    ScopeProbe(details);
    var scopeCheck := KeysExists(Document(details), ScopePath);
    if scopeCheck == Returned(false) {
      fullAccess := true;
    } else {
      filters := details.assetScope.value;
    }
    assert filters == ScopeFilterIds(details);

    var fold := FetchFilters(cat, details, assetId, filters, InitialFilterState(ids));
    if fold.FoldStopped? {
      return Fail(fold.exc);
    }
    var st := fold.state;
    if st.ids.createdBy.None? {
      return Fail(UnboundLocalError("created_by_name"));
    }
    if st.ids.updatedBy.None? {
      return Fail(UnboundLocalError("updated_by_name"));
    }
    var row := Row(
      details.listingName,
      assetSystemName,
      subscriptionId,
      details.subscriberProject,
      details.status,
      details.requestId,
      fmt(details.createdAt),
      st.ids.createdBy.value,
      fmt(details.updatedAt),
      st.ids.updatedBy.value,
      if fullAccess then FullAccess else Names(st.names),
      st.columns,
      st.rowExpression);
    return Emit(row, st.ids);
  }

  // ------------------------------------------------------------ the page loop

  /** One unit of work of the page loop: writing the placeholder row for a page
      seen while the accumulated list is empty, or processing one subscription. */
  datatype Work = EmptyResult | Visit(subscriptionId: string)

  function Visits(ids: seq<string>): seq<Work> {
    seq(|ids|, k requires 0 <= k < |ids| => Visit(ids[k]))
  }

  /** The work of one page, given everything accumulated up to and including it. */
  function PageWork(accumulated: seq<string>): seq<Work> {
    if accumulated == [] then [EmptyResult] else Visits(accumulated)
  }

  /** The work of the whole page loop: each page re-processes every
      subscription accumulated so far. */
  function Schedule(pages: seq<seq<string>>): seq<Work> {
    if pages == [] then []
    else Schedule(pages[..|pages| - 1]) + PageWork(Concat(pages))
  }

  /** The extraction's progress: the lines written and the identities in scope,
      or the exception that stopped it and the lines written before it. */
  datatype RunState = Running(lines: seq<CsvLine>, ids: Identities) | Halted(exc: Exc, lines: seq<CsvLine>)

  /** Performing `work` after the header has been written. */
  function Run(cat: Catalog, fmt: Timestamp -> string, work: seq<Work>): RunState {
    if work == [] then Running([HeaderLine], Identities(None, None))
    else match Run(cat, fmt, work[..|work| - 1])
      case Halted(e, lines) => Halted(e, lines)
      case Running(lines, ids) =>
        match work[|work| - 1]
        case EmptyResult => Halted(ValueError(WriterRejects(PlaceholderKeys)), lines)
        case Visit(id) =>
          match SubscriptionStep(cat, fmt, id, ids)
          case Fail(e) => Halted(e, lines)
          case Emit(row, ids') => Running(lines + [DataRow(row)], ids')
  }

  /** Once an exception has stopped the extraction, further work changes nothing. */
  lemma {:induction false} HaltedPersists(cat: Catalog, fmt: Timestamp -> string, done: seq<Work>, all: seq<Work>)
    requires done <= all
    requires Run(cat, fmt, done).Halted?
    ensures Run(cat, fmt, all) == Run(cat, fmt, done)
    decreases |all|
  {
    if |all| > |done| {
      HaltedPersists(cat, fmt, done, all[..|all| - 1]);
    } else {
      assert done == all;
    }
  }

  /** Visiting one more subscription from a running state. */
  lemma RunVisit(cat: Catalog, fmt: Timestamp -> string, work: seq<Work>, id: string,
                 lines: seq<CsvLine>, ids: Identities)
    requires Run(cat, fmt, work) == Running(lines, ids)
    ensures Run(cat, fmt, work + [Visit(id)]) ==
      match SubscriptionStep(cat, fmt, id, ids)
      case Fail(e) => Halted(e, lines)
      case Emit(row, ids') => Running(lines + [DataRow(row)], ids')
  {
    assert (work + [Visit(id)])[..|work|] == work;
  }

  /** The visits of the first `j + 1` subscriptions extend those of the first
      `j`, and all lie within the page's work. */
  lemma VisitsNext(done: seq<Work>, subscriptions: seq<string>, j: nat)
    requires j < |subscriptions|
    ensures done + Visits(subscriptions[..j + 1]) == done + Visits(subscriptions[..j]) + [Visit(subscriptions[j])]
    ensures done + Visits(subscriptions[..j + 1]) <= done + PageWork(subscriptions)
  {
    assert Visits(subscriptions[..j + 1]) == Visits(subscriptions[..j]) + [Visit(subscriptions[j])];
    assert Visits(subscriptions[..j + 1]) <= Visits(subscriptions);
  }

  /** Earlier pages' work is a prefix of later pages' work. */
  lemma {:induction false} SchedulePrefix(pages: seq<seq<string>>, p: nat)
    requires p <= |pages|
    ensures Schedule(pages[..p]) <= Schedule(pages)
    decreases |pages| - p
  {
    if p < |pages| {
      var longer := pages[..p + 1];
      assert longer[..|longer| - 1] == pages[..p];
      assert Schedule(pages[..p]) <= Schedule(longer);
      SchedulePrefix(pages, p + 1);
    } else {
      assert pages[..p] == pages;
    }
  }

  /** One more page: its items join the accumulated list, and its work follows
      the earlier pages' work. */
  lemma PagesNext(pages: seq<seq<string>>, p: nat)
    requires p < |pages|
    ensures Concat(pages[..p + 1]) == Concat(pages[..p]) + pages[p]
    ensures Schedule(pages[..p + 1]) == Schedule(pages[..p]) + PageWork(Concat(pages[..p + 1]))
  {
    assert pages[..p + 1][..p] == pages[..p];
  }

  /** A run that halts within the first `p` pages ends as it halted there. */
  lemma HaltedAtPage(cat: Catalog, fmt: Timestamp -> string, pages: seq<seq<string>>, p: nat)
    requires p <= |pages|
    requires Run(cat, fmt, Schedule(pages[..p])).Halted?
    ensures Run(cat, fmt, Schedule(pages)) == Run(cat, fmt, Schedule(pages[..p]))
  {
    SchedulePrefix(pages, p);
    HaltedPersists(cat, fmt, Schedule(pages[..p]), Schedule(pages));
  }

  /** How the extraction ended. */
  datatype ExtractOutcome =
    | Completed                   // every page processed
    | ClientErrorCaught(error: Exc) // a catalog call failed; `except ClientError` stopped the writing
    | Escaped(exc: Exc)           // any other exception escapes the handler

  /** The outcome for an exception raised inside the `try` of lines 65-153. */
  function Stopped(e: Exc): ExtractOutcome {
    if e.ClientError? then ClientErrorCaught(e) else Escaped(e)
  }

  datatype ExtractResult = ExtractResult(outcome: ExtractOutcome, lines: seq<CsvLine>)

  /** The whole extraction, from resolving the project name to the last page. */
  function Extract(cat: Catalog, fmt: Timestamp -> string, projectName: string): ExtractResult {
    match ResolvedProject(cat, projectName)
    case None => ExtractResult(Escaped(UnboundLocalError("selected_value")), [])
    case Some(pid) =>
      if pid !in cat.subscriptionPages then ExtractResult(ClientErrorCaught(ClientError("ListSubscriptions")), [HeaderLine])
      else match Run(cat, fmt, Schedule(cat.subscriptionPages[pid]))
        case Running(lines, _) => ExtractResult(Completed, lines)
        case Halted(e, lines) => ExtractResult(Stopped(e), lines)
  }

  /** Processes one subscription and writes its row. */
  method VisitSubscription(cat: Catalog, fmt: Timestamp -> string, ghost work: seq<Work>,
                           subscriptionId: string, lines: seq<CsvLine>, ids: Identities)
    returns (state: RunState)
    requires Run(cat, fmt, work) == Running(lines, ids)
    ensures state == Run(cat, fmt, work + [Visit(subscriptionId)])
  {
    RunVisit(cat, fmt, work, subscriptionId, lines, ids);
    var step := ProcessSubscription(cat, fmt, subscriptionId, ids);
    match step
    case Fail(e) =>
      state := Halted(e, lines);
    case Emit(row, ids') =>
      state := Running(lines + [DataRow(row)], ids');
  }

  /** The body of the page loop once the page's items have been added: the
      placeholder row (which the writer rejects) while nothing has accumulated,
      otherwise a row for every accumulated subscription, stopping at the first
      exception. */
  method WritePage(cat: Catalog, fmt: Timestamp -> string, ghost done: seq<Work>,
                   subscriptions: seq<string>, lines0: seq<CsvLine>, ids0: Identities)
    returns (state: RunState)
    requires Run(cat, fmt, done) == Running(lines0, ids0)
    ensures state == Run(cat, fmt, done + PageWork(subscriptions))
  {
    var lines, ids := lines0, ids0;
    if subscriptions == [] {
      assert (done + [EmptyResult])[..|done|] == done;
      return Halted(ValueError(WriterRejects(PlaceholderKeys)), lines);
    }
    var j := 0;
    assert done + Visits(subscriptions[..0]) == done;
    while j < |subscriptions|
      invariant 0 <= j <= |subscriptions|
      invariant Run(cat, fmt, done + Visits(subscriptions[..j])) == Running(lines, ids)
    {
      VisitsNext(done, subscriptions, j);
      var next := VisitSubscription(cat, fmt, done + Visits(subscriptions[..j]), subscriptions[j], lines, ids);
      if next.Halted? {
        HaltedPersists(cat, fmt, done + Visits(subscriptions[..j + 1]), done + PageWork(subscriptions));
        return next;
      }
      lines, ids := next.lines, next.ids;
      j := j + 1;
    }
    assert subscriptions[..j] == subscriptions;
    return Running(lines, ids);
  }

  /** The page loop of lines 77-150: the accumulated list grows by each page's
      items, and every page writes rows for all of it. */
  method WritePages(cat: Catalog, fmt: Timestamp -> string, pages: seq<seq<string>>)
    returns (state: RunState)
    ensures state == Run(cat, fmt, Schedule(pages))
  {
    var subscriptions: seq<string> := [];
    state := Running([HeaderLine], Identities(None, None));
    var p := 0;
    while p < |pages|
      invariant 0 <= p <= |pages|
      invariant subscriptions == Concat(pages[..p])
      invariant state == Run(cat, fmt, Schedule(pages[..p]))
      invariant state.Running?
    {
      PagesNext(pages, p);
      subscriptions := subscriptions + pages[p];
      state := WritePage(cat, fmt, Schedule(pages[..p]), subscriptions, state.lines, state.ids);
      if state.Halted? {
        HaltedAtPage(cat, fmt, pages, p + 1);
        return;
      }
      p := p + 1;
    }
    assert pages[..p] == pages;
  }

  /** Lines 39-150 of the handler: collect the projects, resolve the project
      name, then page through the approver project's subscriptions. */
  method GetSubscriptionDetailsCsv(cat: Catalog, fmt: Timestamp -> string, projectName: string)
    returns (result: ExtractResult)
    ensures result == Extract(cat, fmt, projectName)
  {
    var projects := CollectProjects(cat.projectPages);
    var dict2 := ProjectNameIds(projects);
    assert dict2 == NameIds(projects);
    var selected := ResolveProjectId(dict2, projectName);
    if selected.None? {
      return ExtractResult(Escaped(UnboundLocalError("selected_value")), []);
    }
    var projectId := selected.value;
    if projectId !in cat.subscriptionPages {
      return ExtractResult(ClientErrorCaught(ClientError("ListSubscriptions")), [HeaderLine]);
    }
    var state := WritePages(cat, fmt, cat.subscriptionPages[projectId]);
    match state
    case Running(lines, _) => return ExtractResult(Completed, lines);
    case Halted(e, lines) => return ExtractResult(Stopped(e), lines);
  }
}
