/** What the subscription extract does, stated about its specification
    functions: which project is resolved, what a row's filter fields hold, where
    the Created By / Updated By identities come from, and how often each
    subscription is written. */
module ExtractProperties {
  import opened Common
  import opened Catalog
  import opened SubscriptionExtract

  // ---------------------------------------------------------------- projects

  /** Project resolution picks the id of the LAST project with the given name,
      and leaves `selected_value` unbound exactly when no project has it. */
  lemma ResolutionPicksLastMatch(dict2: seq<NameId>, name: string)
    ensures LastSome(Candidates(dict2, name)).None? <==>
      forall i :: 0 <= i < |dict2| ==> dict2[i].name != name
    ensures forall i ::
      (0 <= i < |dict2| && dict2[i].name == name && forall j :: i < j < |dict2| ==> dict2[j].name != name) ==>
      LastSome(Candidates(dict2, name)) == Some(dict2[i].id)
  {
    var c := Candidates(dict2, name);
    LastSomeIsLast(c);
    forall i | 0 <= i < |dict2| && dict2[i].name == name &&
      (forall j :: i < j < |dict2| ==> dict2[j].name != name)
      ensures LastSome(c) == Some(dict2[i].id)
    {
      assert IsLastSome(c, i);
    }
    if !(forall i :: 0 <= i < |dict2| ==> dict2[i].name != name) {
      var i :| 0 <= i < |dict2| && dict2[i].name == name;
      assert c[i].Some?;
    }
  }

  /** The written lines always start with the header. */
  lemma {:induction false} RunStartsWithHeader(cat: Catalog, fmt: Timestamp -> string, work: seq<Work>)
    ensures |Run(cat, fmt, work).lines| >= 1 && Run(cat, fmt, work).lines[0] == HeaderLine
  {
    if work != [] {
      RunStartsWithHeader(cat, fmt, work[..|work| - 1]);
    }
  }

  /** Nothing is written, and the handler fails on the unbound `selected_value`,
      exactly when no listed project carries the requested name. */
  lemma UnmatchedProjectRaises(cat: Catalog, fmt: Timestamp -> string, projectName: string)
    ensures Extract(cat, fmt, projectName).lines == [] <==>
      forall p :: p in Concat(cat.projectPages) ==> p.name != projectName
    ensures Extract(cat, fmt, projectName).lines == [] ==>
      Extract(cat, fmt, projectName).outcome == Escaped(UnboundLocalError("selected_value"))
  {
    var projects := Concat(cat.projectPages);
    var dict2 := NameIds(projects);
    ResolutionPicksLastMatch(dict2, projectName);
    match ResolvedProject(cat, projectName)
    case None =>
      forall p | p in projects ensures p.name != projectName {
        var i :| 0 <= i < |projects| && projects[i] == p;
        assert dict2[i].name == p.name;
      }
    case Some(pid) =>
      var i :| 0 <= i < |dict2| && dict2[i].name == projectName;
      assert projects[i] in projects;
      if pid in cat.subscriptionPages {
        RunStartsWithHeader(cat, fmt, Schedule(cat.subscriptionPages[pid]));
      }
  }

  // ---------------------------------------------------------- filter folding

  /** Every filter id of the list names a filter of the asset. */
  predicate AllResolved(cat: Catalog, assetId: string, filterIds: seq<string>) {
    forall k :: 0 <= k < |filterIds| ==> (assetId, filterIds[k]) in cat.filters
  }

  /** The filters looked up, in `filterIds` order. */
  function Resolved(cat: Catalog, assetId: string, filterIds: seq<string>): seq<AssetFilter>
    requires AllResolved(cat, assetId, filterIds)
  {
    seq(|filterIds|, k requires 0 <= k < |filterIds| => cat.filters[(assetId, filterIds[k])])
  }

  function FilterNames(fs: seq<AssetFilter>): seq<string> {
    seq(|fs|, k requires 0 <= k < |fs| => fs[k].name)
  }

  function ColumnOffers(fs: seq<AssetFilter>): seq<Option<seq<string>>> {
    seq(|fs|, k requires 0 <= k < |fs| => fs[k].effectiveColumnNames)
  }

  function RowFilterOffers(fs: seq<AssetFilter>): seq<Option<Value>> {
    seq(|fs|, k requires 0 <= k < |fs| => fs[k].effectiveRowFilter)
  }

  /** LastSome of a sequence extended by one more offer. */
  lemma LastSomeSnoc<T>(opts: seq<Option<T>>, o: Option<T>)
    ensures LastSome(opts + [o]) == if o.Some? then o else LastSome(opts)
  {
    assert (opts + [o])[..|opts|] == opts;
  }

  /** One successful filter step: the filter exists, its name is appended, its
      effective fields overwrite the previous ones when present, and both
      identities are looked up. */
  lemma FilterStepFacts(cat: Catalog, d: SubscriptionDetail, assetId: string, filterId: string, st: FilterState)
    requires FilterStep(cat, d, assetId, filterId, st).Folding?
    ensures (assetId, filterId) in cat.filters
    ensures var f := cat.filters[(assetId, filterId)]; var st' := FilterStep(cat, d, assetId, filterId, st).state;
      && st'.names == st.names + [f.name]
      && st'.columns == f.effectiveColumnNames.GetOr(st.columns)
      && st'.rowExpression == f.effectiveRowFilter.GetOr(st.rowExpression)
    ensures d.requestId in cat.requests
    ensures IamArn(cat, cat.requests[d.requestId]).Returned? && IamArn(cat, d.updatedBy).Returned?
    ensures FilterStep(cat, d, assetId, filterId, st).state.ids ==
      Identities(Some(IamArn(cat, cat.requests[d.requestId]).value), Some(IamArn(cat, d.updatedBy).value))
  {
  }

  /** The per-filter loop, when it does not raise, has found every filter; it
      appends one name per filter id in order, and it leaves in
      `filter_columns` and `filter_row_expression` the value of the last filter
      carrying that key (the initial value if none does). */
  lemma {:induction false} FoldFiltersSummary(cat: Catalog, d: SubscriptionDetail, assetId: string,
                                              filterIds: seq<string>, init: FilterState)
    requires FoldFilters(cat, d, assetId, filterIds, init).Folding?
    ensures AllResolved(cat, assetId, filterIds)
    ensures var st := FoldFilters(cat, d, assetId, filterIds, init).state;
      var fs := Resolved(cat, assetId, filterIds);
      && st.names == init.names + FilterNames(fs)
      && st.columns == LastSome(ColumnOffers(fs)).GetOr(init.columns)
      && st.rowExpression == LastSome(RowFilterOffers(fs)).GetOr(init.rowExpression)
  {
    if filterIds != [] {
      var n := |filterIds| - 1;
      var pre := filterIds[..n];
      var st0 := FoldFilters(cat, d, assetId, pre, init).state;
      FoldFiltersSummary(cat, d, assetId, pre, init);
      FilterStepFacts(cat, d, assetId, filterIds[n], st0);
      assert forall k :: 0 <= k < n ==> filterIds[k] == pre[k];
      var fs := Resolved(cat, assetId, filterIds);
      var fsPre := Resolved(cat, assetId, pre);
      var f := cat.filters[(assetId, filterIds[n])];
      assert fs == fsPre + [f];
      assert FilterNames(fs) == FilterNames(fsPre) + [f.name];
      assert ColumnOffers(fs) == ColumnOffers(fsPre) + [f.effectiveColumnNames];
      assert RowFilterOffers(fs) == RowFilterOffers(fsPre) + [f.effectiveRowFilter];
      LastSomeSnoc(ColumnOffers(fsPre), f.effectiveColumnNames);
      LastSomeSnoc(RowFilterOffers(fsPre), f.effectiveRowFilter);
    }
  }

  /** The identities the per-filter loop leaves: unchanged when there is no
      filter, otherwise the subscription request's creator and the last
      updater, both IAM users. */
  lemma FoldFiltersIdentities(cat: Catalog, d: SubscriptionDetail, assetId: string,
                              filterIds: seq<string>, init: FilterState)
    requires FoldFilters(cat, d, assetId, filterIds, init).Folding?
    ensures filterIds == [] ==> FoldFilters(cat, d, assetId, filterIds, init).state.ids == init.ids
    ensures filterIds != [] ==>
      && d.requestId in cat.requests
      && IamArn(cat, cat.requests[d.requestId]).Returned?
      && IamArn(cat, d.updatedBy).Returned?
      && FoldFilters(cat, d, assetId, filterIds, init).state.ids ==
           Identities(Some(IamArn(cat, cat.requests[d.requestId]).value), Some(IamArn(cat, d.updatedBy).value))
  {
    if filterIds != [] {
      var n := |filterIds| - 1;
      FilterStepFacts(cat, d, assetId, filterIds[n], FoldFilters(cat, d, assetId, filterIds[..n], init).state);
    }
  }

  // ------------------------------------------------------- one subscription

  /** A written row copies the subscription's and the asset's scalar fields; its
      Subscription ID is the id being processed. */
  lemma EmittedRowCopiesDetail(cat: Catalog, fmt: Timestamp -> string, id: string, ids: Identities)
    requires SubscriptionStep(cat, fmt, id, ids).Emit?
    ensures id in cat.subscriptions && cat.subscriptions[id].assetId in cat.assets
    ensures var d := cat.subscriptions[id]; var row := SubscriptionStep(cat, fmt, id, ids).row;
      && row.subscriptionId == id
      && row.datazoneAssetName == d.listingName
      && row.assetSystemName == cat.assets[d.assetId].externalIdentifier
      && row.subscriberProject == d.subscriberProject
      && row.subscriptionStatus == d.status
      && row.subscriptionRequestId == d.requestId
      && row.createdAt == fmt(d.createdAt)
      && row.updatedAt == fmt(d.updatedAt)
  {
  }

  /** Without an access scope the row says 'Full Access' with empty columns and
      row expression, and the identities are the ones already in scope: none of
      filters, subscription requests or user profiles is consulted. If no earlier
      subscription bound `created_by_name`, building the row fails. */
  lemma FullAccessRow(cat: Catalog, fmt: Timestamp -> string, id: string, ids: Identities,
                      other: Catalog)
    requires id in cat.subscriptions && cat.subscriptions[id].assetScope.None?
    requires other == cat.(filters := other.filters, requests := other.requests, users := other.users)
    ensures SubscriptionStep(cat, fmt, id, ids) == SubscriptionStep(other, fmt, id, ids)
    ensures SubscriptionStep(cat, fmt, id, ids).Emit? ==>
      var r := SubscriptionStep(cat, fmt, id, ids);
      && r.row.filterName == FullAccess
      && r.row.filterColumns == []
      && r.row.filterRowExpression == List([])
      && r.ids == ids
      && r.row.createdBy == ids.createdBy.value
      && r.row.updatedBy == ids.updatedBy.value
    ensures cat.subscriptions[id].assetId in cat.assets && ids.createdBy.None? ==>
      SubscriptionStep(cat, fmt, id, ids) == Fail(UnboundLocalError("created_by_name"))
  {
  }

  /** With an access scope, a written row's `filter_name` lists one name per
      filter id in `filterIds` order, while `filter_columns` and
      `filter_row_expression` hold the value of the last filter that carries
      the key, or the empty list when none does. */
  lemma ScopedRow(cat: Catalog, fmt: Timestamp -> string, id: string, ids: Identities)
    requires id in cat.subscriptions && cat.subscriptions[id].assetScope.Some?
    requires SubscriptionStep(cat, fmt, id, ids).Emit?
    ensures var d := cat.subscriptions[id]; AllResolved(cat, d.assetId, d.assetScope.value)
    ensures var d := cat.subscriptions[id]; var row := SubscriptionStep(cat, fmt, id, ids).row;
      var fs := Resolved(cat, d.assetId, d.assetScope.value);
      && row.filterName == Names(FilterNames(fs))
      && |row.filterName.names| == |d.assetScope.value|
      && ((forall k :: 0 <= k < |fs| ==> fs[k].effectiveColumnNames.None?) ==> row.filterColumns == [])
      && (forall k :: IsLastSome(ColumnOffers(fs), k) ==> row.filterColumns == fs[k].effectiveColumnNames.value)
      && ((forall k :: 0 <= k < |fs| ==> fs[k].effectiveRowFilter.None?) ==> row.filterRowExpression == List([]))
      && (forall k :: IsLastSome(RowFilterOffers(fs), k) ==> row.filterRowExpression == fs[k].effectiveRowFilter.value)
  {
    var d := cat.subscriptions[id];
    var init := InitialFilterState(ids);
    ScopedStepFold(cat, fmt, id, ids);
    FoldFiltersSummary(cat, d, d.assetId, d.assetScope.value, init);
    OfferFacts(Resolved(cat, d.assetId, d.assetScope.value));
  }

  /** A scoped subscription's row carries the filter loop's final state. */
  lemma ScopedStepFold(cat: Catalog, fmt: Timestamp -> string, id: string, ids: Identities)
    requires id in cat.subscriptions && cat.subscriptions[id].assetScope.Some?
    requires SubscriptionStep(cat, fmt, id, ids).Emit?
    ensures var d := cat.subscriptions[id];
      var fold := FoldFilters(cat, d, d.assetId, d.assetScope.value, InitialFilterState(ids));
      var row := SubscriptionStep(cat, fmt, id, ids).row;
      && fold.Folding?
      && row.filterName == Names(fold.state.names)
      && row.filterColumns == fold.state.columns
      && row.filterRowExpression == fold.state.rowExpression
  {
  }

  /** The last offered columns and row filter, defaulting to empty ones. */
  lemma OfferFacts(fs: seq<AssetFilter>)
    ensures (forall k :: 0 <= k < |fs| ==> fs[k].effectiveColumnNames.None?) ==> LastSome(ColumnOffers(fs)).GetOr([]) == []
    ensures forall k :: IsLastSome(ColumnOffers(fs), k) ==> LastSome(ColumnOffers(fs)).GetOr([]) == fs[k].effectiveColumnNames.value
    ensures (forall k :: 0 <= k < |fs| ==> fs[k].effectiveRowFilter.None?) ==> LastSome(RowFilterOffers(fs)).GetOr(List([])) == List([])
    ensures forall k :: IsLastSome(RowFilterOffers(fs), k) ==> LastSome(RowFilterOffers(fs)).GetOr(List([])) == fs[k].effectiveRowFilter.value
  {
    LastSomeIsLast(ColumnOffers(fs));
    LastSomeIsLast(RowFilterOffers(fs));
    assert forall k :: 0 <= k < |fs| ==> ColumnOffers(fs)[k] == fs[k].effectiveColumnNames;
    assert forall k :: 0 <= k < |fs| ==> RowFilterOffers(fs)[k] == fs[k].effectiveRowFilter;
  }

  /** Created By and Updated By come from the subscription request's creator and
      the last updater when the scope lists at least one filter; with an empty
      filter list they are carried over from the previous subscription, and the
      first such subscription fails on the unbound `created_by_name`. */
  lemma ScopedIdentities(cat: Catalog, fmt: Timestamp -> string, id: string, ids: Identities)
    requires id in cat.subscriptions && cat.subscriptions[id].assetScope.Some?
    ensures var d := cat.subscriptions[id]; var r := SubscriptionStep(cat, fmt, id, ids);
      r.Emit? && d.assetScope.value != [] ==>
        && d.requestId in cat.requests
        && r.row.createdBy == IamArn(cat, cat.requests[d.requestId]).value
        && r.row.updatedBy == IamArn(cat, d.updatedBy).value
    ensures var d := cat.subscriptions[id]; var r := SubscriptionStep(cat, fmt, id, ids);
      r.Emit? && d.assetScope.value == [] ==> r.ids == ids && r.row.createdBy == ids.createdBy.value
    ensures var d := cat.subscriptions[id];
      d.assetScope.value == [] && d.assetId in cat.assets && ids.createdBy.None? ==>
        SubscriptionStep(cat, fmt, id, ids) == Fail(UnboundLocalError("created_by_name"))
  {
    var d := cat.subscriptions[id];
    var init := InitialFilterState(ids);
    if FoldFilters(cat, d, d.assetId, d.assetScope.value, init).Folding? {
      FoldFiltersIdentities(cat, d, d.assetId, d.assetScope.value, init);
    }
  }

  // ------------------------------------------------------------ the page loop

  /** The number of subscription rows written for subscription `x`. */
  function CountRows(lines: seq<CsvLine>, x: string): nat {
    if lines == [] then 0
    else
      var last := lines[|lines| - 1];
      CountRows(lines[..|lines| - 1], x) + if last.DataRow? && last.row.subscriptionId == x then 1 else 0
  }

  /** A run that did not stop wrote one row per visit: as many rows for `x` as
      `x` was visited. */
  lemma {:induction false} RunRowCount(cat: Catalog, fmt: Timestamp -> string, work: seq<Work>, x: string)
    requires Run(cat, fmt, work).Running?
    ensures CountRows(Run(cat, fmt, work).lines, x) == multiset(work)[Visit(x)]
  {
    if work != [] {
      var pre := work[..|work| - 1];
      var w := work[|work| - 1];
      assert work == pre + [w];
      assert Run(cat, fmt, pre).Running?;
      RunRowCount(cat, fmt, pre, x);
      var lines := Run(cat, fmt, work).lines;
      assert lines[..|lines| - 1] == Run(cat, fmt, pre).lines;
      if w.Visit? {
        EmittedRowCopiesDetail(cat, fmt, w.subscriptionId, Run(cat, fmt, pre).ids);
      }
    }
  }

  /** Visiting a list visits each id as often as it occurs. */
  lemma {:induction false} VisitsCount(ids: seq<string>, x: string)
    ensures multiset(Visits(ids))[Visit(x)] == multiset(ids)[x]
  {
    if ids != [] {
      var n := |ids| - 1;
      VisitsCount(ids[..n], x);
      assert Visits(ids) == Visits(ids[..n]) + [Visit(ids[n])];
      assert ids == ids[..n] + [ids[n]];
    }
  }

  lemma PageWorkCount(accumulated: seq<string>, x: string)
    ensures multiset(PageWork(accumulated))[Visit(x)] == multiset(accumulated)[x]
  {
    VisitsCount(accumulated, x);
  }

  /** A page and its predecessors. */
  lemma ScheduleStep(pages: seq<seq<string>>, x: string)
    requires pages != []
    ensures var pre := pages[..|pages| - 1];
      && multiset(Schedule(pages))[Visit(x)] == multiset(Schedule(pre))[Visit(x)] + multiset(Concat(pages))[x]
      && multiset(Concat(pages))[x] == multiset(Concat(pre))[x] + multiset(pages[|pages| - 1])[x]
  {
    PageWorkCount(Concat(pages), x);
  }

  /** An id that occurs on no page is never visited. */
  lemma {:induction false} ScheduleAbsent(pages: seq<seq<string>>, x: string)
    requires multiset(Concat(pages))[x] == 0
    ensures multiset(Schedule(pages))[Visit(x)] == 0
  {
    if pages != [] {
      ScheduleStep(pages, x);
      ScheduleAbsent(pages[..|pages| - 1], x);
    }
  }

  /** An id on some page occurs in the accumulated list. */
  lemma {:induction false} InConcat(pages: seq<seq<string>>, i: nat, x: string)
    requires i < |pages| && x in pages[i]
    ensures multiset(Concat(pages))[x] >= 1
  {
    ScheduleStep(pages, x);
    if i < |pages| - 1 {
      InConcat(pages[..|pages| - 1], i, x);
    }
  }

  /** Because every page re-visits everything accumulated so far, an id listed
      once, on page `i` of `n`, is visited `n - i` times (pages counted from 0). */
  lemma {:induction false} ScheduleVisitCount(pages: seq<seq<string>>, x: string, i: nat)
    requires i < |pages| && x in pages[i]
    requires multiset(Concat(pages))[x] == 1
    ensures multiset(Schedule(pages))[Visit(x)] == |pages| - i
  {
    var n := |pages| - 1;
    var pre := pages[..n];
    ScheduleStep(pages, x);
    if i == n {
      assert multiset(pages[n])[x] >= 1;
      ScheduleAbsent(pre, x);
    } else {
      assert pre[i] == pages[i];
      InConcat(pre, i, x);
      ScheduleVisitCount(pre, x, i);
    }
  }

  /** When the extraction completes, a subscription listed once, on page `i` of
      the `n` pages, has `n - i` rows in the file. */
  lemma RowsPerSubscription(cat: Catalog, fmt: Timestamp -> string, projectName: string,
                            pid: string, x: string, i: nat)
    requires ResolvedProject(cat, projectName) == Some(pid) && pid in cat.subscriptionPages
    requires Extract(cat, fmt, projectName).outcome == Completed
    requires i < |cat.subscriptionPages[pid]| && x in cat.subscriptionPages[pid][i]
    requires multiset(Concat(cat.subscriptionPages[pid]))[x] == 1
    ensures CountRows(Extract(cat, fmt, projectName).lines, x) == |cat.subscriptionPages[pid]| - i
  {
    var pages := cat.subscriptionPages[pid];
    RunRowCount(cat, fmt, Schedule(pages), x);
    ScheduleVisitCount(pages, x, i);
  }

  /** A project whose only subscription has no access scope: processing it
      fails on the unbound `created_by_name` after the header was written. */
  lemma SingleFullAccessSubscription(cat: Catalog, fmt: Timestamp -> string, projectName: string,
                                     pid: string, x: string)
    requires ResolvedProject(cat, projectName) == Some(pid)
    requires pid in cat.subscriptionPages && cat.subscriptionPages[pid] == [[x]]
    requires x in cat.subscriptions && cat.subscriptions[x].assetScope.None?
    requires cat.subscriptions[x].assetId in cat.assets
    ensures Extract(cat, fmt, projectName) ==
      ExtractResult(Escaped(UnboundLocalError("created_by_name")), [HeaderLine])
  {
    var none := Identities(None, None);
    FullAccessRow(cat, fmt, x, none, cat);
    SinglePageSchedule(x);
    assert [Visit(x)][..0] == [];
    assert Run(cat, fmt, [Visit(x)]) == Halted(UnboundLocalError("created_by_name"), [HeaderLine]);
  }

  lemma SinglePageSchedule(x: string)
    ensures Schedule([[x]]) == [Visit(x)]
  {
    var pages := [[x]];
    assert pages[..0] == [];
    assert Concat(pages) == [x];
    assert Visits([x]) == [Visit(x)];
  }

  /** A first `list_subscriptions` page with no items makes the handler write
      the placeholder row, which the CSV writer rejects: a ValueError naming
      both of its keys escapes after only the header was written. */
  lemma EmptyFirstPageRejected(cat: Catalog, fmt: Timestamp -> string, projectName: string, pid: string)
    requires ResolvedProject(cat, projectName) == Some(pid)
    requires pid in cat.subscriptionPages
    requires |cat.subscriptionPages[pid]| > 0 && cat.subscriptionPages[pid][0] == []
    ensures Extract(cat, fmt, projectName) ==
      ExtractResult(Escaped(ValueError({"Asset Name", "Filters"})), [HeaderLine])
  {
    EmptyFirstPageHalts(cat, fmt, cat.subscriptionPages[pid]);
  }

  /** The page loop over pages whose first is empty halts on the placeholder row. */
  lemma EmptyFirstPageHalts(cat: Catalog, fmt: Timestamp -> string, pages: seq<seq<string>>)
    requires |pages| > 0 && pages[0] == []
    ensures Run(cat, fmt, Schedule(pages)) == Halted(ValueError({"Asset Name", "Filters"}), [HeaderLine])
  {
    EmptyPageSchedule(pages);
    PlaceholderRun(cat, fmt);
    HaltedAtPage(cat, fmt, pages, 1);
  }

  lemma EmptyPageSchedule(pages: seq<seq<string>>)
    requires |pages| > 0 && pages[0] == []
    ensures Schedule(pages[..1]) == [EmptyResult]
  {
    var first := pages[..1];
    assert first[..0] == [];
    assert Concat(first) == [];
  }

  lemma PlaceholderRun(cat: Catalog, fmt: Timestamp -> string)
    ensures Run(cat, fmt, [EmptyResult]) == Halted(ValueError({"Asset Name", "Filters"}), [HeaderLine])
  {
    assert [EmptyResult][..0] == [];
    PlaceholderRejected();
  }
}
