/**
 * `DaoUpdatesAgent.get_dao_updates`: one update per proposal of a DAO, each
 * prioritised by the impact analysis of its proposal, then sorted by priority
 * rank with `reverse=True`.
 */
module DaoUpdates {
  import opened Wrappers
  import opened Seqs
  import opened Impact

  datatype Priority = Urgent | Important | Fyi
  datatype Category = ProposalCategory | TreasuryCategory | GovernanceCategory | SocialCategory
  datatype ActionKind = LinkAction | VoteAction | DelegateAction
  datatype UpdateAction = UpdateAction(kind: ActionKind, caption: string, url: string)

  /** The `DaoUpdate` record, without its timestamp and metadata payload. */
  datatype DaoUpdate = DaoUpdate(
    id: string, daoSlug: string, daoName: string, title: string, description: string,
    priority: Priority, category: Category, actions: seq<UpdateAction>)

  /**
   * The reply to `get_organization(dao_slug)`: nothing usable at all (no reply,
   * an empty one, or one without `data`), a reply whose
   * `data.organization.id` cannot be read (or a call that raised), or an organization.
   */
  datatype OrgResponse = OrgMissing | OrgMalformed | OrgFound(orgId: string, name: Field)

  /**
   * The reply to `get_proposals(org id, include_active=False)`: without
   * `data.proposals` (no updates), with `data.proposals.nodes` unreadable (or a
   * call that raised), or the proposal nodes.
   */
  datatype ProposalsResponse = ProposalsMissing | ProposalsMalformed | ProposalNodes(nodes: seq<Proposal>)

  /** The Tally client, as the functions from request argument to reply. */
  datatype TallyClient = TallyClient(getOrganization: string -> OrgResponse, getProposals: string -> ProposalsResponse)

  /** The sort key of line 183: urgent 0, important 1, fyi 2. */
  function Rank(p: Priority): nat {
    match p
    case Urgent => 0
    case Important => 1
    case Fyi => 2
  }

  /** An update's priority: urgent exactly for a high risk, important otherwise. */
  function PriorityFor(risk: RiskLevel): (p: Priority)
    ensures p == Urgent <==> risk == High
    ensures p != Fyi
  {
    if risk == High then Urgent else Important
  }

  /** How Python's f-string renders a field that must be present: `None` for `null`. */
  function Render(f: Field): (r: string)
    requires !f.Missing?
    ensures f.Text? ==> r == f.text
    ensures f.Null? ==> r == "None"
  {
    if f.Null? then "None" else f.text
  }

  /**
   * The value of `proposal['metadata'].get('title', 'Unknown Proposal')`,
   * rendered: the same title the impact analysis puts into its prompt, or
   * `None` when that title is `null`.
   */
  function UpdateTitle(m: Metadata): (r: string)
    requires m.MetadataObject?
    ensures TitleOf(m).Str? ==> r == TitleOf(m).s
    ensures TitleOf(m).PyNone? ==> r == "None"
  {
    match Get(m.title, DefaultTitle)
    case Str(s) => s
    case PyNone => "None"
  }

  /**
   * The update built for one proposal node from its impact analysis, or `None`
   * when building it raises: the node has no `id`, its `metadata` entry is
   * absent or `null`, or the organization's name is absent or not a string.
   */
  function BuildUpdate(daoSlug: string, orgName: Field, p: Proposal, impact: ImpactAnalysis): (r: Option<DaoUpdate>)
    ensures r.Some? <==> !p.id.Missing? && p.metadata.MetadataObject? && orgName.Text?
    ensures r.Some? ==>
      && r.value.id == "prop_" + Render(p.id)
      && r.value.daoSlug == daoSlug
      && r.value.daoName == orgName.text
      && r.value.title == "Proposal: " + UpdateTitle(p.metadata)
      && r.value.description == impact.summary
      && r.value.category == ProposalCategory
      && (r.value.priority == Urgent <==> impact.riskLevel == High)
      && r.value.priority != Fyi
      && r.value.actions == [UpdateAction(LinkAction, "View Proposal", ProposalUrl(daoSlug, Render(p.id)))]
  {
    if p.id.Missing? || !p.metadata.MetadataObject? || !orgName.Text? then None
    else
      var id := Render(p.id);
      Some(DaoUpdate(
        "prop_" + id, daoSlug, orgName.text,
        "Proposal: " + UpdateTitle(p.metadata),
        impact.summary,
        PriorityFor(impact.riskLevel),
        ProposalCategory,
        [UpdateAction(LinkAction, "View Proposal", ProposalUrl(daoSlug, id))]))
  }

  /** The Tally page of a proposal. */
  function ProposalUrl(daoSlug: string, id: string): string {
    "https://www.tally.xyz/gov/" + daoSlug + "/proposal/" + id
  }

  /** The impact analysis `get_dao_updates` runs on each node, with the model's replies fixed by `llm`. */
  function Analyzer(llm: string -> string): Proposal -> ImpactAnalysis {
    (p: Proposal) => AnalyzeProposalImpact(p, llm)
  }

  /** The update (or the failure) of every node, in node order. */
  function BuildEach(daoSlug: string, orgName: Field, nodes: seq<Proposal>, analyze: Proposal -> ImpactAnalysis)
    : (r: seq<Option<DaoUpdate>>)
    ensures |r| == |nodes|
    ensures forall i :: 0 <= i < |nodes| ==> r[i] == BuildUpdate(daoSlug, orgName, nodes[i], analyze(nodes[i]))
  {
    seq(|nodes|, i requires 0 <= i < |nodes| => BuildUpdate(daoSlug, orgName, nodes[i], analyze(nodes[i])))
  }

  /** Ranks never increase from left to right. */
  predicate NonIncreasingRank(s: seq<DaoUpdate>) {
    forall i, j :: 0 <= i < j < |s| ==> Rank(s[i].priority) >= Rank(s[j].priority)
  }

  /** Inserts `x` in front of the first element whose rank is below its own. */
  function Insert(t: seq<DaoUpdate>, x: DaoUpdate): seq<DaoUpdate> {
    if t == [] then [x]
    else if Rank(t[0].priority) < Rank(x.priority) then [x] + t
    else [t[0]] + Insert(t[1..], x)
  }

  /**
   * `sorted(updates, key=rank, reverse=True)`, as an insertion sort that takes
   * the updates from left to right.
   */
  function SortByRankDescending(s: seq<DaoUpdate>): seq<DaoUpdate> {
    if s == [] then []
    else Insert(SortByRankDescending(s[..|s| - 1]), s[|s| - 1])
  }

  function HasPriority(p: Priority): DaoUpdate -> bool {
    (u: DaoUpdate) => u.priority == p
  }

  /** Inserting into a sequence split at `x`'s rank puts `x` at the split. */
  lemma {:induction false} InsertAtBoundary(t1: seq<DaoUpdate>, t2: seq<DaoUpdate>, x: DaoUpdate)
    requires forall u :: u in t1 ==> Rank(u.priority) >= Rank(x.priority)
    requires t2 != [] ==> Rank(t2[0].priority) < Rank(x.priority)
    ensures Insert(t1 + t2, x) == t1 + [x] + t2
  {
    if t1 == [] {
      assert t1 + t2 == t2;
      assert t1 + [x] + t2 == [x] + t2;
    } else {
      var t := t1 + t2;
      assert t[0] == t1[0] && t[1..] == t1[1..] + t2;
      assert t1[0] in t1;
      InsertAtBoundary(t1[1..], t2, x);
      assert Insert(t, x) == [t1[0]] + (t1[1..] + [x] + t2);
      assert t1 == [t1[0]] + t1[1..];
    }
  }

  /** The step of the stability proof: `x` joins the end of its own priority group. */
  lemma InsertIntoGroups(f: seq<DaoUpdate>, i: seq<DaoUpdate>, u: seq<DaoUpdate>, x: DaoUpdate)
    requires forall y :: y in f ==> y.priority == Fyi
    requires forall y :: y in i ==> y.priority == Important
    requires forall y :: y in u ==> y.priority == Urgent
    ensures x.priority == Fyi ==> Insert(f + i + u, x) == f + [x] + i + u
    ensures x.priority == Important ==> Insert(f + i + u, x) == f + (i + [x]) + u
    ensures x.priority == Urgent ==> Insert(f + i + u, x) == f + i + (u + [x])
  {
    match x.priority
    case Fyi =>
      assert f + i + u == f + (i + u);
      if i != [] { assert (i + u)[0] == i[0] && i[0] in i; }
      else if u != [] { assert (i + u)[0] == u[0] && u[0] in u; }
      InsertAtBoundary(f, i + u, x);
      assert f + [x] + (i + u) == f + [x] + i + u;
    case Important =>
      if u != [] { assert u[0] in u; }
      InsertAtBoundary(f + i, u, x);
      assert f + i + [x] + u == f + (i + [x]) + u;
    case Urgent =>
      InsertAtBoundary(f + i + u, [], x);
      assert f + i + u + [] == f + i + u;
      assert f + i + u + [x] == f + i + (u + [x]);
  }

  /**
   * Stability: the sort equals the fyi updates, then the important ones, then
   * the urgent ones, each group in its original order.
   */
  lemma {:induction false} SortIsStableGrouping(s: seq<DaoUpdate>)
    ensures SortByRankDescending(s)
      == Filter(s, HasPriority(Fyi)) + Filter(s, HasPriority(Important)) + Filter(s, HasPriority(Urgent))
  {
    if s != [] {
      var init, x := s[..|s| - 1], s[|s| - 1];
      assert s == init + [x];
      SortIsStableGrouping(init);
      var f, i, u := Filter(init, HasPriority(Fyi)), Filter(init, HasPriority(Important)), Filter(init, HasPriority(Urgent));
      FilterConcat(init, [x], HasPriority(Fyi));
      FilterConcat(init, [x], HasPriority(Important));
      FilterConcat(init, [x], HasPriority(Urgent));
      FilterMembers(init, HasPriority(Fyi));
      FilterMembers(init, HasPriority(Important));
      FilterMembers(init, HasPriority(Urgent));
      InsertIntoGroups(f, i, u, x);
      var xf, xi, xu := Filter([x], HasPriority(Fyi)), Filter([x], HasPriority(Important)), Filter([x], HasPriority(Urgent));
      assert SortByRankDescending(s) == Insert(f + i + u, x);
      match x.priority
      case Fyi =>
        assert xf == [x] && xi == [] && xu == [];
        Regroup(f, i, u, xf, xi, xu, x);
      case Important =>
        assert xf == [] && xi == [x] && xu == [];
        Regroup(f, i, u, xf, xi, xu, x);
      case Urgent =>
        assert xf == [] && xi == [] && xu == [x];
        Regroup(f, i, u, xf, xi, xu, x);
    }
  }

  /** Re-association of the three groups after `x` joined one of them. */
  lemma Regroup<T>(f: seq<T>, i: seq<T>, u: seq<T>, xf: seq<T>, xi: seq<T>, xu: seq<T>, x: T)
    ensures xf == [x] && xi == [] && xu == [] ==> (f + xf) + (i + xi) + (u + xu) == f + [x] + i + u
    ensures xf == [] && xi == [x] && xu == [] ==> (f + xf) + (i + xi) + (u + xu) == f + (i + [x]) + u
    ensures xf == [] && xi == [] && xu == [x] ==> (f + xf) + (i + xi) + (u + xu) == f + i + (u + [x])
  {
  }

  /** Fyi, then important, then urgent updates are in non-increasing rank order. */
  lemma GroupedIsOrdered(f: seq<DaoUpdate>, i: seq<DaoUpdate>, u: seq<DaoUpdate>)
    requires forall y :: y in f ==> y.priority == Fyi
    requires forall y :: y in i ==> y.priority == Important
    requires forall y :: y in u ==> y.priority == Urgent
    ensures NonIncreasingRank(f + i + u)
  {
    var s := f + i + u;
    forall a, b | 0 <= a < b < |s| ensures Rank(s[a].priority) >= Rank(s[b].priority) {
      assert a < |f| ==> s[a] == f[a] && s[a] in f;
      assert |f| <= a < |f| + |i| ==> s[a] == i[a - |f|] && s[a] in i;
      assert |f| + |i| <= a ==> s[a] == u[a - |f| - |i|] && s[a] in u;
      assert b < |f| ==> s[b] == f[b] && s[b] in f;
      assert |f| <= b < |f| + |i| ==> s[b] == i[b - |f|] && s[b] in i;
      assert |f| + |i| <= b ==> s[b] == u[b - |f| - |i|] && s[b] in u;
    }
  }

  /** The sort returns a permutation of its input in non-increasing rank order. */
  lemma SortPermutesInRankOrder(s: seq<DaoUpdate>)
    ensures multiset(SortByRankDescending(s)) == multiset(s)
    ensures NonIncreasingRank(SortByRankDescending(s))
    ensures |SortByRankDescending(s)| == |s|
    ensures forall u :: u in SortByRankDescending(s) <==> u in s
  {
    SortIsStableGrouping(s);
    var f, i, u := Filter(s, HasPriority(Fyi)), Filter(s, HasPriority(Important)), Filter(s, HasPriority(Urgent));
    FilterPartition(s, HasPriority(Fyi), HasPriority(Important), HasPriority(Urgent));
    FilterMembers(s, HasPriority(Fyi));
    FilterMembers(s, HasPriority(Important));
    FilterMembers(s, HasPriority(Urgent));
    GroupedIsOrdered(f, i, u);
    SameElements(SortByRankDescending(s), s);
  }

  /** Sequences with the same multiset have the same length and the same elements. */
  lemma SameElements<T>(a: seq<T>, b: seq<T>)
    requires multiset(a) == multiset(b)
    ensures |a| == |b|
    ensures forall x :: x in a <==> x in b
  {
    assert |a| == |multiset(a)| == |multiset(b)| == |b|;
    assert forall x :: x in a <==> x in multiset(a);
  }

  /**
   * The updates the agent builds are never fyi, so the result lists every
   * important update, then every urgent one, each in proposal order.
   */
  lemma ImportantBeforeUrgent(s: seq<DaoUpdate>)
    requires forall u :: u in s ==> u.priority != Fyi
    ensures SortByRankDescending(s) == Filter(s, HasPriority(Important)) + Filter(s, HasPriority(Urgent))
  {
    SortIsStableGrouping(s);
    FilterAllOrNone(s, HasPriority(Fyi));
    var i, u := Filter(s, HasPriority(Important)), Filter(s, HasPriority(Urgent));
    assert Filter(s, HasPriority(Fyi)) + i == i;
  }

  /**
   * The loop of lines 159-180: builds the update of every node in turn and
   * gives up at the first node whose update cannot be built.
   */
  method BuildUpdates(daoSlug: string, orgName: Field, nodes: seq<Proposal>, analyze: Proposal -> ImpactAnalysis)
    returns (built: Option<seq<DaoUpdate>>)
    ensures built == AllPresent(BuildEach(daoSlug, orgName, nodes, analyze))
  {
    ghost var each := BuildEach(daoSlug, orgName, nodes, analyze);
    var updates: seq<DaoUpdate> := [];
    var i := 0;
    while i < |nodes|
      invariant 0 <= i <= |nodes|
      invariant |updates| == i
      invariant forall k :: 0 <= k < i ==> each[k].Some? && updates[k] == each[k].value
    {
      var impact := analyze(nodes[i]);
      var u := BuildUpdate(daoSlug, orgName, nodes[i], impact);
      if u.None? {
        assert each[i].None?;
        return None;
      }
      updates := updates + [u.value];
      i := i + 1;
    }
    AllPresentValues(each, updates);
    return Some(updates);
  }

  /**
   * `get_dao_updates(dao_slug)`: the empty list when the organization or the
   * proposal list cannot be read or any node cannot be turned into an update;
   * otherwise the updates of all nodes, sorted by descending rank.
   */
  method GetDaoUpdates(daoSlug: string, tally: TallyClient, llm: string -> string) returns (updates: seq<DaoUpdate>)
    ensures !tally.getOrganization(daoSlug).OrgFound? ==> updates == []
    ensures tally.getOrganization(daoSlug).OrgFound? ==>
      var org := tally.getOrganization(daoSlug);
      match tally.getProposals(org.orgId)
      case ProposalNodes(nodes) =>
        (match AllPresent(BuildEach(daoSlug, org.name, nodes, Analyzer(llm)))
         case None => updates == []
         case Some(built) => updates == SortByRankDescending(built))
      case _ => updates == []
  {
    var org := tally.getOrganization(daoSlug);
    if !org.OrgFound? {
      return [];
    }
    var proposals := tally.getProposals(org.orgId);
    if !proposals.ProposalNodes? {
      return [];
    }
    var built := BuildUpdates(daoSlug, org.name, proposals.nodes, Analyzer(llm));
    if built.None? {
      return [];
    }
    updates := SortByRankDescending(built.value);
  }

  /**
   * The update built for node `i` carries that node's impact summary as its
   * description, which is never empty, and is urgent exactly when the node's
   * risk is high.
   */
  lemma UpdateOfNode(daoSlug: string, orgName: Field, nodes: seq<Proposal>, llm: string -> string, i: int)
    requires 0 <= i < |nodes|
    requires BuildEach(daoSlug, orgName, nodes, Analyzer(llm))[i].Some?
    ensures var u := BuildEach(daoSlug, orgName, nodes, Analyzer(llm))[i].value;
      var impact := AnalyzeProposalImpact(nodes[i], llm);
      && u.description == impact.summary
      && u.description != ""
      && (u.priority == Urgent <==> impact.riskLevel == High)
  {
  }

  /**
   * Whatever the impact analysis, every update built from the nodes belongs to
   * the DAO, is in the proposal category and is not fyi, and there is one per node.
   */
  lemma BuiltUpdates(daoSlug: string, orgName: Field, nodes: seq<Proposal>, analyze: Proposal -> ImpactAnalysis)
    requires AllPresent(BuildEach(daoSlug, orgName, nodes, analyze)).Some?
    ensures var built := AllPresent(BuildEach(daoSlug, orgName, nodes, analyze)).value;
      && |built| == |nodes|
      && forall u :: u in built ==> u.priority != Fyi && u.daoSlug == daoSlug && u.category == ProposalCategory
  {
    var each := BuildEach(daoSlug, orgName, nodes, analyze);
    var built := AllPresent(each).value;
    forall u | u in built ensures u.priority != Fyi && u.daoSlug == daoSlug && u.category == ProposalCategory {
      var i :| 0 <= i < |built| && built[i] == u;
      assert each[i].Some? && u == each[i].value;
    }
  }

  /**
   * A successful run returns one update per proposal node: exactly the built
   * updates (as a multiset), the important ones first and the urgent ones
   * last, each group keeping proposal order.
   */
  lemma SuccessfulUpdates(daoSlug: string, orgName: Field, nodes: seq<Proposal>, analyze: Proposal -> ImpactAnalysis)
    requires AllPresent(BuildEach(daoSlug, orgName, nodes, analyze)).Some?
    ensures var built := AllPresent(BuildEach(daoSlug, orgName, nodes, analyze)).value;
      var r := SortByRankDescending(built);
      && |r| == |nodes|
      && multiset(r) == multiset(built)
      && r == Filter(built, HasPriority(Important)) + Filter(built, HasPriority(Urgent))
      && forall u :: u in r ==> u.daoSlug == daoSlug && u.category == ProposalCategory && u.priority != Fyi
  {
    var built := AllPresent(BuildEach(daoSlug, orgName, nodes, analyze)).value;
    BuiltUpdates(daoSlug, orgName, nodes, analyze);
    ImportantBeforeUrgent(built);
    SortPermutesInRankOrder(built);
  }
}
