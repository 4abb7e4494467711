/**
 * The dashboard page of the frontend: the `fetchData` effect that loads the
 * connected wallet's token holdings, its delegations and the updates of its
 * DAOs into four pieces of page state, and the three priority groups the page
 * renders from the updates.
 */
module Dashboard {
  import opened Wrappers
  import opened Seqs

  /** How an awaited service call settles: with a value, or by throwing. */
  datatype Outcome<+T> = Resolved(value: T) | Rejected

  /** The token holdings payload, passed from one service to the next unchanged. */
  datatype Holdings = Holdings(payload: string)

  /** A delegation entry, reduced to the fields the pipeline reads. */
  datatype Delegation = Delegation(daoSlug: string, daoName: string)

  /** The aggregator's answer: active, available and recommended delegations. */
  datatype DelegationsData = DelegationsData(
    active: seq<Delegation>, available: seq<Delegation>, recommended: seq<Delegation>)

  /** An update as the page receives it; `priority` is a plain string. */
  datatype DaoUpdate = DaoUpdate(id: string, daoSlug: string, title: string, priority: string)

  /** The three services `fetchData` awaits, as functions of their arguments. */
  datatype Services = Services(
    getTokenHoldings: string -> Outcome<Holdings>,
    getDelegations: (string, Holdings) -> Outcome<DelegationsData>,
    getDaoUpdates: (seq<string>, Holdings) -> Outcome<seq<DaoUpdate>>)

  /** A service request with its arguments. */
  datatype Request =
    | TokenHoldingsRequest(address: string)
    | DelegationsRequest(address: string, holdings: Holdings)
    | DaoUpdatesRequest(slugs: seq<string>, holdings: Holdings)

  /** The four state variables of the page. */
  datatype PageState = PageState(
    delegationsData: Option<DelegationsData>, updates: seq<DaoUpdate>, loading: bool, error: Option<string>)

  /** A request together with the page state at the moment it is issued. */
  datatype Call = Call(request: Request, shown: PageState)

  /** The state `fetchData` leaves behind and the calls it made, in order. */
  datatype Run = Run(final: PageState, calls: seq<Call>)

  const FetchFailed: string := "Failed to fetch data"

  /** The initial values of the four `useState` hooks. */
  const Initial: PageState := PageState(None, [], false, None)

  /** JavaScript's `!address`: no address, or the empty string. */
  predicate NoAddress(address: Option<string>) {
    address.None? || address.value == ""
  }

  /** The position of a request in the pipeline: holdings, delegations, updates. */
  function Stage(r: Request): nat {
    match r
    case TokenHoldingsRequest(_) => 0
    case DelegationsRequest(_, _) => 1
    case DaoUpdatesRequest(_, _) => 2
  }

  /** Whether the service a request goes to resolves for it. */
  predicate Accepted(svc: Services, r: Request) {
    match r
    case TokenHoldingsRequest(a) => svc.getTokenHoldings(a).Resolved?
    case DelegationsRequest(a, h) => svc.getDelegations(a, h).Resolved?
    case DaoUpdatesRequest(slugs, h) => svc.getDaoUpdates(slugs, h).Resolved?
  }

  /** `delegations.map(d => d.dao_slug)`. */
  function Slugs(ds: seq<Delegation>): (r: seq<string>)
    ensures |r| == |ds|
    ensures forall i :: 0 <= i < |ds| ==> r[i] == ds[i].daoSlug
  {
    seq(|ds|, i requires 0 <= i < |ds| => ds[i].daoSlug)
  }

  /** The slug list of lines 54-57: active slugs, then available ones. */
  function DaoSlugs(d: DelegationsData): (r: seq<string>)
    ensures |r| == |d.active| + |d.available|
  {
    Slugs(d.active) + Slugs(d.available)
  }

  /** The state the `catch` and `finally` blocks leave. */
  function Failed(s: PageState): PageState {
    s.(error := Some(FetchFailed), loading := false)
  }

  /**
   * One run of `fetchData` from page state `s`. Without an address it clears
   * the delegations and the updates and calls nothing. Otherwise it raises
   * `loading`, clears `error`, and then awaits holdings, delegations and
   * updates in turn; the delegations are committed as soon as they arrive, the
   * updates call is skipped for an empty slug list, and the first rejection
   * ends the run with the fixed error message.
   */
  function Fetch(s: PageState, address: Option<string>, svc: Services): (r: Run)
    ensures |r.calls| <= 3
    ensures r.calls == [] <==> NoAddress(address)
    ensures NoAddress(address) ==> r.final.loading == s.loading && r.final.error == s.error
    ensures !NoAddress(address) ==> !r.final.loading && (r.final.error == None || r.final.error == Some(FetchFailed))
  {
    if NoAddress(address) then Run(s.(delegationsData := None, updates := []), [])
    else
      var a := address.value;
      var busy := s.(loading := true, error := None);
      var holdingsCall := Call(TokenHoldingsRequest(a), busy);
      match svc.getTokenHoldings(a)
      case Rejected => Run(Failed(busy), [holdingsCall])
      case Resolved(h) =>
        var delegationsCall := Call(DelegationsRequest(a, h), busy);
        match svc.getDelegations(a, h)
        case Rejected => Run(Failed(busy), [holdingsCall, delegationsCall])
        case Resolved(d) =>
          var committed := busy.(delegationsData := Some(d));
          var slugs := DaoSlugs(d);
          if |slugs| == 0 then Run(committed.(loading := false), [holdingsCall, delegationsCall])
          else
            var updatesCall := Call(DaoUpdatesRequest(slugs, h), committed);
            match svc.getDaoUpdates(slugs, h)
            case Rejected => Run(Failed(committed), [holdingsCall, delegationsCall, updatesCall])
            case Resolved(us) =>
              Run(committed.(updates := us, loading := false), [holdingsCall, delegationsCall, updatesCall])
  }

  /** The page component's state hooks. */
  class Page {
    var delegationsData: Option<DelegationsData>
    var updates: seq<DaoUpdate>
    var loading: bool
    var error: Option<string>

    function State(): PageState
      reads this
    {
      PageState(delegationsData, updates, loading, error)
    }

    /** A freshly mounted page. */
    constructor ()
      ensures State() == Initial
    {
      delegationsData := None;
      updates := [];
      loading := false;
      error := None;
    }

    /**
     * `fetchData`: updates the four fields through their setters and returns
     * the service calls it made, each with the state current when it was made.
     */
    method FetchData(address: Option<string>, svc: Services) returns (calls: seq<Call>)
      modifies this
      ensures Run(State(), calls) == Fetch(old(State()), address, svc)
    {
      if NoAddress(address) {
        delegationsData := None;
        updates := [];
        return [];
      }
      var a := address.value;
      loading := true;
      error := None;
      calls := [Call(TokenHoldingsRequest(a), State())];
      var holdings := svc.getTokenHoldings(a);
      if holdings.Rejected? {
        error := Some(FetchFailed);
        loading := false;
        return;
      }
      var h := holdings.value;
      calls := calls + [Call(DelegationsRequest(a, h), State())];
      var data := svc.getDelegations(a, h);
      if data.Rejected? {
        error := Some(FetchFailed);
        loading := false;
        return;
      }
      delegationsData := Some(data.value);
      var slugs := DaoSlugs(data.value);
      if |slugs| > 0 {
        calls := calls + [Call(DaoUpdatesRequest(slugs, h), State())];
        var updatesData := svc.getDaoUpdates(slugs, h);
        if updatesData.Rejected? {
          error := Some(FetchFailed);
          loading := false;
          return;
        }
        updates := updatesData.value;
      }
      loading := false;
    }
  }

  /**
   * Without an address the delegations become null and the updates empty, no
   * service is called, and `loading` and `error` keep their values.
   */
  lemma AbsentAddressResets(s: PageState, address: Option<string>, svc: Services)
    requires NoAddress(address)
    ensures Fetch(s, address, svc).calls == []
    ensures Fetch(s, address, svc).final.delegationsData == None
    ensures Fetch(s, address, svc).final.updates == []
    ensures Fetch(s, address, svc).final.loading == s.loading
    ensures Fetch(s, address, svc).final.error == s.error
  {
  }

  /**
   * With an address, every call is made with `loading` raised and `error`
   * cleared, the calls go to holdings, delegations and updates in that order
   * with at most one each, the first call is the holdings request for the
   * address, and the run ends with `loading` lowered.
   */
  lemma PresentAddressSettles(s: PageState, address: Option<string>, svc: Services)
    requires !NoAddress(address)
    ensures var r := Fetch(s, address, svc);
      && 1 <= |r.calls| <= 3
      && r.calls[0].request == TokenHoldingsRequest(address.value)
      && (forall i :: 0 <= i < |r.calls| ==> Stage(r.calls[i].request) == i)
      && (forall i :: 0 <= i < |r.calls| ==> r.calls[i].shown.loading && r.calls[i].shown.error == None)
      && !r.final.loading
  {
  }

  /**
   * With an address, only the last call can be rejected, and the error is the
   * fixed message exactly when some call was rejected and null otherwise.
   */
  lemma ErrorIffRejected(s: PageState, address: Option<string>, svc: Services)
    requires !NoAddress(address)
    ensures var r := Fetch(s, address, svc);
      && (forall i :: 0 <= i < |r.calls| - 1 ==> Accepted(svc, r.calls[i].request))
      && r.final.error == (if forall c :: c in r.calls ==> Accepted(svc, c.request) then None else Some(FetchFailed))
  {
    var r := Fetch(s, address, svc);
    var a := address.value;
    if svc.getTokenHoldings(a).Resolved? {
      var h := svc.getTokenHoldings(a).value;
      if svc.getDelegations(a, h).Resolved? {
        var d := svc.getDelegations(a, h).value;
        if |DaoSlugs(d)| > 0 && svc.getDaoUpdates(DaoSlugs(d), h).Rejected? {
          assert !Accepted(svc, r.calls[2].request);
        }
      } else {
        assert !Accepted(svc, r.calls[1].request);
      }
    } else {
      assert !Accepted(svc, r.calls[0].request);
    }
  }

  /**
   * When the holdings or the delegations call is rejected, nothing after it is
   * called and the delegations and updates keep their previous values.
   */
  lemma EarlyFailureKeepsResults(s: PageState, address: Option<string>, svc: Services)
    requires !NoAddress(address)
    requires svc.getTokenHoldings(address.value).Rejected?
      || svc.getDelegations(address.value, svc.getTokenHoldings(address.value).value).Rejected?
    ensures var r := Fetch(s, address, svc);
      && r.final == Failed(s)
      && !Accepted(svc, r.calls[|r.calls| - 1].request)
      && forall c :: c in r.calls ==> Stage(c.request) < 2
  {
  }

  /**
   * Once the delegations resolve they are committed: they are on the page when
   * the updates are requested, for the slugs of exactly those delegations, and
   * they stay even when the updates call is rejected, which leaves the previous
   * updates in place. The updates are requested exactly when the slug list is
   * not empty, and replace the previous ones exactly when that request resolves.
   */
  lemma DelegationsCommittedBeforeUpdates(s: PageState, address: Option<string>, svc: Services)
    requires !NoAddress(address)
    requires svc.getTokenHoldings(address.value).Resolved?
    requires svc.getDelegations(address.value, svc.getTokenHoldings(address.value).value).Resolved?
    ensures var a := address.value;
      var h := svc.getTokenHoldings(a).value;
      var d := svc.getDelegations(a, h).value;
      var r := Fetch(s, address, svc);
      && r.final.delegationsData == Some(d)
      && (|r.calls| == 3 <==> DaoSlugs(d) != [])
      && (|r.calls| == 3 ==>
            r.calls[2].request == DaoUpdatesRequest(DaoSlugs(d), h)
            && r.calls[2].shown.delegationsData == Some(d))
      && r.final.updates == (
           if DaoSlugs(d) != [] && svc.getDaoUpdates(DaoSlugs(d), h).Resolved?
           then svc.getDaoUpdates(DaoSlugs(d), h).value
           else s.updates)
  {
  }

  /** The updates service is never called with an empty slug list. */
  lemma UpdatesOnlyForNonEmptySlugs(s: PageState, address: Option<string>, svc: Services)
    ensures forall c :: c in Fetch(s, address, svc).calls && c.request.DaoUpdatesRequest? ==> c.request.slugs != []
  {
  }

  /**
   * The slug list holds the active slugs followed by the available ones, in
   * order, without removing duplicates; recommended delegations add nothing.
   */
  lemma DaoSlugsLayout(d: DelegationsData)
    ensures |DaoSlugs(d)| == |d.active| + |d.available|
    ensures forall i :: 0 <= i < |d.active| ==> DaoSlugs(d)[i] == d.active[i].daoSlug
    ensures forall i :: 0 <= i < |d.available| ==> DaoSlugs(d)[|d.active| + i] == d.available[i].daoSlug
    ensures forall rec :: DaoSlugs(d.(recommended := rec)) == DaoSlugs(d)
  {
  }

  /** The delegations that carry `slug`. */
  function Carries(slug: string): Delegation -> bool {
    (x: Delegation) => x.daoSlug == slug
  }

  /** Each slug occurs in the mapped list as often as it is the slug of a delegation. */
  lemma {:induction false} DaoSlugsCounts(ds: seq<Delegation>, slug: string)
    ensures multiset(Slugs(ds))[slug] == |Filter(ds, Carries(slug))|
  {
    if ds != [] {
      DaoSlugsCounts(ds[1..], slug);
      assert Slugs(ds) == [ds[0].daoSlug] + Slugs(ds[1..]);
    }
  }

  /**
   * No deduplication: a slug occurs in the slug list once per active and once
   * per available delegation that carries it.
   */
  lemma SlugOccurrences(d: DelegationsData, slug: string)
    ensures multiset(DaoSlugs(d))[slug] == |Filter(d.active, Carries(slug))| + |Filter(d.available, Carries(slug))|
  {
    DaoSlugsCounts(d.active, slug);
    DaoSlugsCounts(d.available, slug);
  }

  /** A settled page (not loading, error null or the fixed message) stays settled. */
  predicate Settled(s: PageState) {
    !s.loading && (s.error == None || s.error == Some(FetchFailed))
  }

  lemma FetchKeepsSettled(s: PageState, address: Option<string>, svc: Services)
    requires Settled(s)
    ensures Settled(Fetch(s, address, svc).final)
  {
  }

  /** Running `fetchData` again with the same address and services changes nothing more. */
  lemma FetchIdempotent(s: PageState, address: Option<string>, svc: Services)
    ensures var once := Fetch(s, address, svc).final;
      Fetch(once, address, svc).final == once
  {
  }

  /** The three priority groups the page renders. */
  datatype Groups = Groups(urgent: seq<DaoUpdate>, important: seq<DaoUpdate>, fyi: seq<DaoUpdate>)

  function HasPriority(p: string): DaoUpdate -> bool {
    (u: DaoUpdate) => u.priority == p
  }

  /** `updates.filter(u => u.priority === p)` for the three priorities. */
  function GroupByPriority(updates: seq<DaoUpdate>): (r: Groups)
    ensures forall u :: u in r.urgent <==> u in updates && u.priority == "urgent"
    ensures forall u :: u in r.important <==> u in updates && u.priority == "important"
    ensures forall u :: u in r.fyi <==> u in updates && u.priority == "fyi"
  {
    FilterMembers(updates, HasPriority("urgent"));
    FilterMembers(updates, HasPriority("important"));
    FilterMembers(updates, HasPriority("fyi"));
    Groups(
      Filter(updates, HasPriority("urgent")),
      Filter(updates, HasPriority("important")),
      Filter(updates, HasPriority("fyi")))
  }

  /**
   * Each group holds exactly the updates of its priority, as many times as they
   * occur in `updates`, in their order there.
   */
  lemma GroupsAreExact(updates: seq<DaoUpdate>)
    ensures var g := GroupByPriority(updates);
      && (forall u :: u in g.urgent <==> u in updates && u.priority == "urgent")
      && (forall u :: u in g.important <==> u in updates && u.priority == "important")
      && (forall u :: u in g.fyi <==> u in updates && u.priority == "fyi")
      && IsSubsequence(g.urgent, updates)
      && IsSubsequence(g.important, updates)
      && IsSubsequence(g.fyi, updates)
      && (forall u :: multiset(g.urgent)[u] == if u.priority == "urgent" then multiset(updates)[u] else 0)
      && (forall u :: multiset(g.important)[u] == if u.priority == "important" then multiset(updates)[u] else 0)
      && (forall u :: multiset(g.fyi)[u] == if u.priority == "fyi" then multiset(updates)[u] else 0)
  {
    FilterMembers(updates, HasPriority("urgent"));
    FilterMembers(updates, HasPriority("important"));
    FilterMembers(updates, HasPriority("fyi"));
    FilterOrder(updates, HasPriority("urgent"));
    FilterOrder(updates, HasPriority("important"));
    FilterOrder(updates, HasPriority("fyi"));
    FilterMultiset(updates, HasPriority("urgent"));
    FilterMultiset(updates, HasPriority("important"));
    FilterMultiset(updates, HasPriority("fyi"));
  }

  predicate KnownPriority(p: string) {
    p == "urgent" || p == "important" || p == "fyi"
  }

  /**
   * When every priority is one of the three known ones, the groups partition
   * the updates: their sizes add up and every update is in exactly one group.
   */
  lemma GroupsPartition(updates: seq<DaoUpdate>)
    requires forall u :: u in updates ==> KnownPriority(u.priority)
    ensures var g := GroupByPriority(updates);
      && |g.urgent| + |g.important| + |g.fyi| == |updates|
      && multiset(g.urgent) + multiset(g.important) + multiset(g.fyi) == multiset(updates)
      && forall u :: u in updates ==>
           (u in g.urgent && u !in g.important && u !in g.fyi)
           || (u !in g.urgent && u in g.important && u !in g.fyi)
           || (u !in g.urgent && u !in g.important && u in g.fyi)
  {
    FilterPartition(updates, HasPriority("urgent"), HasPriority("important"), HasPriority("fyi"));
    GroupsAreExact(updates);
  }
}
