/** The two read-only views the Projects page derives from its state on every
    render: the tab-and-search filter and the overdue rule. */
module ProjectViews {
  import opened Common
  import opened JsText
  import opened IsoDates
  import opened ProjectRecords

  /** `{ id, name }`, as the Projects page keeps its clients. */
  datatype Client = Client(id: int, name: string)

  datatype Tab = AllTab | ActiveTab | CompletedTab | OutstandingTab

  /** Index `i` holds the first client with that id. */
  predicate FirstClientWithId(clients: seq<Client>, clientId: int, i: int) {
    0 <= i < |clients| && clients[i].id == clientId && forall j :: 0 <= j < i ==> clients[j].id != clientId
  }

  /** `clients.find((c) => c.id === clientId)?.name || ""`: the name of the
      first client with the id, and "" when there is none. */
  function ClientNameOf(clients: seq<Client>, clientId: int): (r: string)
    ensures r != "" ==> exists i :: 0 <= i < |clients| && clients[i].id == clientId && clients[i].name == r
    ensures (forall i :: 0 <= i < |clients| ==> clients[i].id != clientId) ==> r == ""
    ensures forall i :: FirstClientWithId(clients, clientId, i) ==> r == clients[i].name
    decreases |clients|
  {
    if clients == [] then ""
    else if clients[0].id == clientId then clients[0].name
    else
      var r := ClientNameOf(clients[1..], clientId);
      assert r != "" ==> exists i :: 0 <= i < |clients| && clients[i].id == clientId && clients[i].name == r by {
        if r != "" {
          var i :| 0 <= i < |clients[1..]| && clients[1..][i].id == clientId && clients[1..][i].name == r;
          assert clients[i + 1] == clients[1..][i];
        }
      }
      assert (forall i :: 0 <= i < |clients| ==> clients[i].id != clientId)
        ==> (forall i :: 0 <= i < |clients[1..]| ==> clients[1..][i].id != clientId) by {
        forall i | 0 <= i < |clients[1..]| ensures clients[1..][i] == clients[i + 1] { }
      }
      assert forall i :: FirstClientWithId(clients, clientId, i) ==> r == clients[i].name by {
        forall i | FirstClientWithId(clients, clientId, i) ensures r == clients[i].name {
          assert FirstClientWithId(clients[1..], clientId, i - 1);
        }
      }
      r
  }

  /** The tab test of the filter. */
  predicate MatchesTab(tab: Tab, p: Project) {
    match tab
    case AllTab => true
    case ActiveTab => p.status == Active
    case CompletedTab => p.status == Completed
    case OutstandingTab => p.paymentStatus == Some(Unpaid) || p.paymentStatus == Some(Partial)
  }

  /** The search test: case-insensitive substring of the title or of the
      joined client name. */
  predicate MatchesSearch(p: Project, clients: seq<Client>, search: string) {
    Includes(ToLower(p.title), ToLower(search))
    || Includes(ToLower(ClientNameOf(clients, p.client)), ToLower(search))
  }

  predicate Shown(p: Project, clients: seq<Client>, tab: Tab, search: string) {
    MatchesTab(tab, p) && MatchesSearch(p, clients, search)
  }

  /** `filteredProjects`: an order-preserving sublist of `ps` that holds
      exactly the records passing both tests. */
  function FilterProjects(ps: seq<Project>, clients: seq<Client>, tab: Tab, search: string): (r: seq<Project>)
    ensures IsSubsequence(r, ps)
    ensures forall x :: x in r <==> x in ps && Shown(x, clients, tab, search)
    decreases |ps|
  {
    if ps == [] then []
    else
      var rest := FilterProjects(ps[1..], clients, tab, search);
      assert forall x :: x in ps <==> x == ps[0] || x in ps[1..];
      if Shown(ps[0], clients, tab, search) then
        var r := [ps[0]] + rest;
        assert r[1..] == rest;
        r
      else
        SubsequenceOfTail(rest, ps);
        rest
  }

  /** The filter keeps every shown record as often as the list held it and
      no copy of any other record. */
  lemma {:induction false} FilterKeepsMultiplicity(ps: seq<Project>, clients: seq<Client>, tab: Tab, search: string)
    ensures forall x :: multiset(FilterProjects(ps, clients, tab, search))[x]
                        == if Shown(x, clients, tab, search) then multiset(ps)[x] else 0
    decreases |ps|
  {
    if ps != [] {
      FilterKeepsMultiplicity(ps[1..], clients, tab, search);
      assert ps == [ps[0]] + ps[1..];
      assert multiset(ps) == multiset{ps[0]} + multiset(ps[1..]);
      if Shown(ps[0], clients, tab, search) {
        assert FilterProjects(ps, clients, tab, search) == [ps[0]] + FilterProjects(ps[1..], clients, tab, search);
      }
    }
  }

  /** An on-hold record is on neither status tab, only on the "all" tab. */
  lemma OnHoldOnlyOnAllTab(p: Project, clients: seq<Client>, search: string)
    requires p.status == OnHold
    ensures !Shown(p, clients, ActiveTab, search) && !Shown(p, clients, CompletedTab, search)
    ensures Shown(p, clients, AllTab, search) <==> MatchesSearch(p, clients, search)
  {
  }

  /** An empty search keeps every record of the tab. */
  lemma EmptySearchMatches(p: Project, clients: seq<Client>)
    ensures MatchesSearch(p, clients, "")
  {
    assert ToLower("") == "";
    IncludesEmpty(ToLower(p.title));
  }

  /** The "all" tab with an empty search shows the whole list, in order. */
  lemma {:induction false} AllTabShowsEverything(ps: seq<Project>, clients: seq<Client>)
    ensures FilterProjects(ps, clients, AllTab, "") == ps
    decreases |ps|
  {
    if ps != [] {
      EmptySearchMatches(ps[0], clients);
      AllTabShowsEverything(ps[1..], clients);
      assert ps == [ps[0]] + ps[1..];
    }
  }

  /** Letter case in the search text does not matter. */
  lemma {:induction false} SearchIgnoresCase(ps: seq<Project>, clients: seq<Client>, tab: Tab, s1: string, s2: string)
    requires ToLower(s1) == ToLower(s2)
    ensures FilterProjects(ps, clients, tab, s1) == FilterProjects(ps, clients, tab, s2)
    decreases |ps|
  {
    if ps != [] {
      SearchIgnoresCase(ps[1..], clients, tab, s1, s2);
    }
  }

  /** The "active" and "completed" tabs never show a record twice between
      them, so together they show at most what the "all" tab shows; a project
      on hold is on neither. Without projects on hold they split it exactly. */
  lemma {:induction false} StatusTabsPartition(ps: seq<Project>, clients: seq<Client>, search: string)
    ensures |FilterProjects(ps, clients, ActiveTab, search)| + |FilterProjects(ps, clients, CompletedTab, search)|
         <= |FilterProjects(ps, clients, AllTab, search)|
    ensures (forall i :: 0 <= i < |ps| ==> ps[i].status != OnHold) ==>
      |FilterProjects(ps, clients, ActiveTab, search)| + |FilterProjects(ps, clients, CompletedTab, search)|
      == |FilterProjects(ps, clients, AllTab, search)|
    decreases |ps|
  {
    if ps != [] {
      assert (forall i :: 0 <= i < |ps| ==> ps[i].status != OnHold)
        ==> (forall i :: 0 <= i < |ps[1..]| ==> ps[1..][i].status != OnHold) by {
        forall i | 0 <= i < |ps[1..]| ensures ps[1..][i] == ps[i + 1] { }
      }
      StatusTabsPartition(ps[1..], clients, search);
    }
  }

  /** The "outstanding" tab never shows a paid project, nor one without a
      payment status. */
  lemma OutstandingExcludesPaid(ps: seq<Project>, clients: seq<Client>, search: string, x: Project)
    requires x in FilterProjects(ps, clients, OutstandingTab, search)
    ensures x.paymentStatus.Some? && x.paymentStatus != Some(Paid)
  {
  }

  /** A search for "acme" finds a project whose client is "Acme Inc.". */
  lemma AcmeSearchFindsClient(p: Project)
    requires p.client == 7 && p.title == "Website"
    ensures FilterProjects([p], [Client(7, "Acme Inc.")], AllTab, "acme") == [p]
  {
    var name := ToLower(ClientNameOf([Client(7, "Acme Inc.")], 7));
    assert name[0..4] == "acme";
    assert OccursAt(name, "acme", 0);
    assert ToLower("acme") == "acme";
    assert [p][1..] == [];
  }

  /** `isOverdue(p)` with `today` for `new Date().toISOString().slice(0, 10)`: an
      open project whose non-empty due date sorts before today. A project due
      today is not overdue. */
  function IsOverdue(p: Project, today: string): (r: bool)
    ensures r ==> p.status != Completed && p.dueDate.Some? && p.dueDate.value != ""
    ensures p.dueDate == Some(today) ==> !r
  {
    if p.dueDate.None? || p.dueDate.value == "" then false
    else
      StrLessIrreflexive(today);
      p.status != Completed && StrLess(p.dueDate.value, today)
  }

  /** For ISO dates the string comparison `due_date < today` is the calendar
      order: a project is overdue exactly when it is not completed and its
      due day lies before today. */
  lemma OverdueIsCalendarOrder(p: Project, today: string)
    requires p.dueDate.Some? && IsIsoDate(p.dueDate.value) && IsIsoDate(today)
    ensures IsOverdue(p, today) <==> p.status != Completed && DateBefore(p.dueDate.value, today)
  {
    IsoStringOrderIsDateOrder(p.dueDate.value, today);
  }
}
