/** The document editor's tab strip: clicking a tab makes it the active one,
    and a new tab is appended inactive. */
module DocEditor {
  import opened Common

  datatype DocTab = DocTab(id: string, title: string, isActive: bool)

  /** The tab list the editor opens with; the first tab is active. */
  const InitialTabs: seq<DocTab> := [
    DocTab("main", "To Do August", true),
    DocTab("tab1", "500 CANDLES", false),
    DocTab("tab2", "Christmas Box", false),
    DocTab("tab3", "Random ideas", false),
    DocTab("tab4", "Pumpkin Wax melts", false),
    DocTab("tab5", "Leaves Wax melts", false),
    DocTab("tab6", "July Purchases", false),
    DocTab("tab7", "Website/software", false),
    DocTab("tab8", "August Purchases", false),
    DocTab("tab9", "Clamshell Wax melts", false)
  ]

  /** The tabs' ids, in order. */
  function Ids(tabs: seq<DocTab>): seq<string> {
    seq(|tabs|, i requires 0 <= i < |tabs| => tabs[i].id)
  }

  function ActiveCount(tabs: seq<DocTab>): (r: nat)
    ensures r <= |tabs|
  {
    CountWhere(tabs, (t: DocTab) => t.isActive)
  }

  function IdCount(tabs: seq<DocTab>, id: string): (r: nat)
    ensures r <= |tabs|
  {
    CountWhere(tabs, (t: DocTab) => t.id == id)
  }

  /** handleTabClick: each tab keeps its place, id and title, and is active iff its id is the clicked one. */
  function ClickTab(tabs: seq<DocTab>, id: string): (r: seq<DocTab>)
    ensures |r| == |tabs|
    ensures forall i :: 0 <= i < |r| ==> r[i].id == tabs[i].id && r[i].title == tabs[i].title
    ensures forall i :: 0 <= i < |r| ==> (r[i].isActive <==> tabs[i].id == id)
  {
    if tabs == [] then []
    else
      var rest := ClickTab(tabs[1..], id);
      var r := [tabs[0].(isActive := tabs[0].id == id)] + rest;
      assert forall i :: 1 <= i < |r| ==> r[i] == rest[i - 1] && tabs[i] == tabs[1..][i - 1];
      r
  }

  /** After a click, the active tabs are exactly those carrying the clicked id. */
  lemma {:induction false} ClickActivatesMatching(tabs: seq<DocTab>, id: string)
    ensures ActiveCount(ClickTab(tabs, id)) == IdCount(tabs, id)
  {
    if tabs != [] {
      ClickActivatesMatching(tabs[1..], id);
      assert ClickTab(tabs, id)[1..] == ClickTab(tabs[1..], id);
    }
  }

  /** With distinct ids an id is carried by at most one tab, and by exactly one when it is in the list. */
  lemma {:induction false} IdCountDistinct(tabs: seq<DocTab>, id: string)
    requires Distinct(Ids(tabs))
    ensures id in Ids(tabs) ==> IdCount(tabs, id) == 1
    ensures id !in Ids(tabs) ==> IdCount(tabs, id) == 0
  {
    if tabs != [] {
      var ids := Ids(tabs);
      assert ids[0] == tabs[0].id && ids == [ids[0]] + ids[1..];
      assert Ids(tabs[1..]) == ids[1..];
      assert Distinct(ids[1..]) by {
        forall i, j | 0 <= i < j < |ids[1..]|
          ensures ids[1..][i] != ids[1..][j]
        {
          assert ids[1..][i] == ids[i + 1] && ids[1..][j] == ids[j + 1];
        }
      }
      IdCountDistinct(tabs[1..], id);
      if tabs[0].id == id {
        assert id !in ids[1..] by {
          forall k | 0 <= k < |ids[1..]|
            ensures ids[1..][k] != id
          {
            assert ids[1..][k] == ids[k + 1];
          }
        }
      }
      assert id in ids <==> tabs[0].id == id || id in ids[1..];
    }
  }

  /** Clicking a tab of a list with distinct ids leaves exactly that tab active;
      clicking an id that is not in the list leaves none active. */
  lemma ClickLeavesOneActive(tabs: seq<DocTab>, id: string)
    requires Distinct(Ids(tabs))
    ensures id in Ids(tabs) ==> ActiveCount(ClickTab(tabs, id)) == 1
    ensures id !in Ids(tabs) ==> ActiveCount(ClickTab(tabs, id)) == 0
  {
    ClickActivatesMatching(tabs, id);
    IdCountDistinct(tabs, id);
  }

  /** The tab addNewTab appends at a given clock reading (milliseconds). */
  function NewTab(now: nat): (t: DocTab)
    ensures t.title == "Untitled" && !t.isActive
  {
    DocTab("tab-" + NatToString(now), "Untitled", false)
  }

  /** Tabs added at different clock readings have different ids. */
  lemma NewTabIdsDiffer(m: nat, n: nat)
    requires m != n
    ensures NewTab(m).id != NewTab(n).id
  {
    if NewTab(m).id == NewTab(n).id {
      assert NewTab(m).id[4..] == NatToString(m);
      assert NewTab(n).id[4..] == NatToString(n);
      NatToStringInjective(m, n);
    }
  }

  /** A new tab never takes the id of one of the initial tabs. */
  lemma NewTabIdIsNotInitial(now: nat)
    ensures NewTab(now).id !in Ids(InitialTabs)
  {
    var id := NewTab(now).id;
    InitialIdsAre();
    assert id[3] == '-' && |id| > 4;
    assert forall k :: 0 <= k < |InitialIds| ==> InitialIds[k] != id by {
      forall k | 0 <= k < |InitialIds|
        ensures InitialIds[k] != id
      {
        assert |InitialIds[k]| == 4;
      }
    }
  }

  /** A new tab whose clock reading no earlier tab used keeps the ids distinct. */
  lemma NewTabKeepsIdsDistinct(tabs: seq<DocTab>, now: nat)
    requires Distinct(Ids(tabs)) && NewTab(now).id !in Ids(tabs)
    ensures Distinct(Ids(tabs + [NewTab(now)]))
  {
    var ids := Ids(tabs + [NewTab(now)]);
    forall i, j | 0 <= i < j < |ids|
      ensures ids[i] != ids[j]
    {
      assert ids[i] == Ids(tabs)[i];
      if j < |tabs| {
        assert ids[j] == Ids(tabs)[j];
      }
    }
  }

  lemma ActiveCountAppend(a: seq<DocTab>, b: seq<DocTab>)
    ensures ActiveCount(a + b) == ActiveCount(a) + ActiveCount(b)
  {
    CountWhereAppend(a, b, (t: DocTab) => t.isActive);
  }

  const InitialIds: seq<string> := ["main", "tab1", "tab2", "tab3", "tab4", "tab5", "tab6", "tab7", "tab8", "tab9"]

  lemma InitialIdsAre()
    ensures Ids(InitialTabs) == InitialIds
  {
    assert forall i :: 0 <= i < |InitialIds| ==> Ids(InitialTabs)[i] == InitialIds[i];
  }

  lemma InitialIdsDistinct()
    ensures Distinct(InitialIds)
  {
    forall i, j | 0 <= i < j < |InitialIds|
      ensures InitialIds[i] != InitialIds[j]
    {
      if i == 0 {
        assert InitialIds[i][0] == 'm' && InitialIds[j][0] == 't';
      } else {
        assert InitialIds[i][3] != InitialIds[j][3];
      }
    }
  }

  lemma {:induction false} CountNone(tabs: seq<DocTab>)
    requires forall t :: t in tabs ==> !t.isActive
    ensures ActiveCount(tabs) == 0
  {
    if tabs != [] {
      CountNone(tabs[1..]);
    }
  }

  /** A list whose first tab alone is active has active count 1. */
  lemma OnlyFirstActive(tabs: seq<DocTab>)
    requires |tabs| > 0 && tabs[0].isActive
    requires forall k :: 1 <= k < |tabs| ==> !tabs[k].isActive
    ensures ActiveCount(tabs) == 1
  {
    assert tabs == [tabs[0]] + tabs[1..];
    ActiveCountAppend([tabs[0]], tabs[1..]);
    CountNone(tabs[1..]);
  }

  /** The initial list has one active tab and no id twice. */
  lemma InitialTabsOneActive()
    ensures ActiveCount(InitialTabs) == 1
    ensures Distinct(Ids(InitialTabs))
  {
    InitialIdsAre();
    InitialIdsDistinct();
    OnlyFirstActive(InitialTabs);
  }

  /** The editor page's state. */
  class Editor {
    var tabs: seq<DocTab>
    var docTitle: string

    constructor ()
      ensures tabs == InitialTabs && docTitle == "LAST QUARTER Plan"
      ensures ActiveCount(tabs) == 1 && Distinct(Ids(tabs))
    {
      tabs := InitialTabs;
      docTitle := "LAST QUARTER Plan";
      InitialTabsOneActive();
    }

    method HandleTabClick(id: string)
      modifies this`tabs
      ensures tabs == ClickTab(old(tabs), id)
      ensures ActiveCount(tabs) == IdCount(old(tabs), id)
    {
      ClickActivatesMatching(tabs, id);
      tabs := ClickTab(tabs, id);
    }

    /** addNewTab: one inactive "Untitled" tab at the end, the others untouched. */
    method AddNewTab(now: nat)
      modifies this`tabs
      ensures tabs == old(tabs) + [NewTab(now)]
      ensures ActiveCount(tabs) == ActiveCount(old(tabs))
    {
      ActiveCountAppend(tabs, [NewTab(now)]);
      tabs := tabs + [NewTab(now)];
    }
  }
}
