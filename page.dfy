/** The application shell: which screen is shown, the list of tracked addictions and the one
    selected for the detail screen, and the handlers the screens call back into. */
module Page {
  import opened Types

  datatype Screen = Welcome | Setup | Dashboard | Detail | Settings | Chat | Premium

  // ---------------------------------------------------------------------------------------
  // The list operations the handlers use

  /** addictions.filter(a => a.id !== id) */
  function WithoutId(s: seq<Addiction>, id: string): (r: seq<Addiction>)
    ensures forall a :: a in r <==> a in s && a.id != id
    ensures |r| <= |s|
  {
    if s == [] then []
    else if s[0].id != id then [s[0]] + WithoutId(s[1..], id)
    else WithoutId(s[1..], id)
  }

  /** addictions.map(a => a.id === id ? x : a) */
  function ReplaceId(s: seq<Addiction>, id: string, x: Addiction): (r: seq<Addiction>)
    ensures |r| == |s|
    ensures forall i :: 0 <= i < |s| ==> r[i] == if s[i].id == id then x else s[i]
  {
    if s == [] then [] else [if s[0].id == id then x else s[0]] + ReplaceId(s[1..], id, x)
  }

  /** addictions.find(a => a.id === id): the first record with that id, if any. */
  function FindId(s: seq<Addiction>, id: string): (r: Option<Addiction>)
    ensures r.None? <==> forall i :: 0 <= i < |s| ==> s[i].id != id
    ensures r.Some? ==> exists i :: 0 <= i < |s| && s[i] == r.value && s[i].id == id
                                    && forall j :: 0 <= j < i ==> s[j].id != id
  {
    if s == [] then None
    else if s[0].id == id then Some(s[0])
    else
      var r := FindId(s[1..], id);
      if r.Some? then
        var i :| 0 <= i < |s[1..]| && s[1..][i] == r.value && s[1..][i].id == id
                 && forall j :: 0 <= j < i ==> s[1..][j].id != id;
        assert s[i + 1] == r.value;
        r
      else r
  }

  /** The record a restart produces: a new start and no relapses, everything else kept
      (including the startTime text typed at setup). */
  function Restarted(a: Addiction, now: int): (u: Addiction)
    ensures u.startDate == now && u.relapses == []
    ensures u.(startDate := a.startDate, relapses := a.relapses) == a
  {
    a.(startDate := now, relapses := [])
  }

  /** Deleting keeps the order of what remains: it distributes over concatenation. */
  lemma {:induction false} WithoutIdConcat(s: seq<Addiction>, t: seq<Addiction>, id: string)
    ensures WithoutId(s + t, id) == WithoutId(s, id) + WithoutId(t, id)
  {
    if s == [] {
      assert s + t == t;
    } else {
      assert (s + t)[1..] == s[1..] + t;
      WithoutIdConcat(s[1..], t, id);
    }
  }

  /** Deleting an id that is absent changes nothing; deleting twice is deleting once; the
      number of records removed is the number that carried the id. */
  lemma {:induction false} WithoutIdFacts(s: seq<Addiction>, id: string)
    ensures (forall i :: 0 <= i < |s| ==> s[i].id != id) ==> WithoutId(s, id) == s
    ensures WithoutId(WithoutId(s, id), id) == WithoutId(s, id)
    ensures |WithoutId(s, id)| + CountId(s, id) == |s|
  {
    if s != [] {
      WithoutIdFacts(s[1..], id);
    }
  }

  function CountId(s: seq<Addiction>, id: string): nat
  {
    if s == [] then 0 else (if s[0].id == id then 1 else 0) + CountId(s[1..], id)
  }

  /** After replacing, a lookup of the id finds the replacement, provided the id was present
      and the replacement carries it. */
  lemma FindAfterReplace(s: seq<Addiction>, id: string, x: Addiction)
    requires x.id == id && FindId(s, id).Some?
    ensures FindId(ReplaceId(s, id, x), id) == Some(x)
  {
    var r := ReplaceId(s, id, x);
    var i :| 0 <= i < |s| && s[i].id == id && forall j :: 0 <= j < i ==> s[j].id != id;
    assert forall j :: 0 <= j < i ==> r[j] == s[j];
    FindFirst(r, id, i);
  }

  /** Replacing again with the same record changes nothing; replacing an absent id changes
      nothing either. */
  lemma ReplaceIdStable(s: seq<Addiction>, id: string, x: Addiction)
    requires x.id == id
    ensures ReplaceId(ReplaceId(s, id, x), id, x) == ReplaceId(s, id, x)
    ensures FindId(s, id).None? ==> ReplaceId(s, id, x) == s
  {
    var r := ReplaceId(s, id, x);
    var rr := ReplaceId(r, id, x);
    assert forall i :: 0 <= i < |s| ==> rr[i] == r[i];
  }

  /** A lookup returns the record at the first index carrying the id. */
  lemma {:induction false} FindFirst(s: seq<Addiction>, id: string, i: int)
    requires 0 <= i < |s| && s[i].id == id && forall j :: 0 <= j < i ==> s[j].id != id
    ensures FindId(s, id) == Some(s[i])
  {
    if i > 0 {
      FindFirst(s[1..], id, i - 1);
    }
  }

  // ---------------------------------------------------------------------------------------
  // The application state

  class App {
    var screen: Screen
    var addictions: seq<Addiction>
    var selected: Option<Addiction>

    /** The detail screen is open only with a selection: it is opened together with one, and the
        selection is cleared only when leaving it. */
    ghost predicate Valid()
      reads this
    {
      screen == Detail ==> selected.Some?
    }

    constructor ()
      ensures Valid()
      ensures screen == Welcome && addictions == [] && selected == None
    {
      screen := Welcome;
      addictions := [];
      selected := None;
    }

    /** The screen the page renders: the detail screen needs a selection as well. */
    function Rendered(): (s: Option<Screen>)
      reads this
      ensures s.None? <==> screen == Detail && selected.None?
      ensures s.Some? ==> s.value == screen
      ensures Valid() ==> s == Some(screen)
    {
      if screen == Detail && selected.None? then None else Some(screen)
    }

    /** The first effect: a stored list (present, whatever it holds) replaces the empty one and
        opens the dashboard. The stored text is given already parsed. */
    method Load(saved: Option<seq<Addiction>>)
      requires Valid()
      modifies this
      ensures Valid()
      ensures saved.Some? ==> addictions == saved.value && screen == Dashboard
      ensures saved.None? ==> addictions == old(addictions) && screen == old(screen)
      ensures selected == old(selected)
    {
      if saved.Some? {
        addictions := saved.value;
        screen := Dashboard;
      }
    }

    method Start()
      requires Valid()
      modifies this`screen
      ensures Valid()
      ensures screen == Setup
    {
      screen := Setup;
    }

    /** handleAddictionComplete: the new record goes at the end and the dashboard opens. */
    method AddictionComplete(a: Addiction)
      requires Valid()
      modifies this`addictions, this`screen
      ensures Valid()
      ensures addictions == old(addictions) + [a]
      ensures screen == Dashboard
    {
      addictions := addictions + [a];
      screen := Dashboard;
    }

    /** Leaving the wizard: back to the dashboard if there is anything to show, else welcome. */
    method SetupBack()
      requires Valid()
      modifies this`screen
      ensures Valid()
      ensures screen == if |addictions| > 0 then Dashboard else Welcome
    {
      if |addictions| > 0 {
        screen := Dashboard;
      } else {
        screen := Welcome;
      }
    }

    method AddictionClick(a: Addiction)
      requires Valid()
      modifies this`selected, this`screen
      ensures Valid()
      ensures selected == Some(a) && screen == Detail
    {
      selected := Some(a);
      screen := Detail;
    }

    method BackToDashboard()
      requires Valid()
      modifies this`selected, this`screen
      ensures Valid()
      ensures selected == None && screen == Dashboard
    {
      selected := None;
      screen := Dashboard;
    }

    /** handleDeleteAddiction: every record with the id goes; the selection is left alone. */
    method DeleteAddiction(id: string)
      requires Valid()
      modifies this`addictions, this`screen
      ensures Valid()
      ensures addictions == WithoutId(old(addictions), id)
      ensures screen == Dashboard
    {
      addictions := WithoutId(addictions, id);
      screen := Dashboard;
    }

    /** handleUpdateAddiction: records with the same id are replaced and the update becomes
        the selection, whether or not any record matched. */
    method UpdateAddiction(u: Addiction)
      requires Valid()
      modifies this`addictions, this`selected
      ensures Valid()
      ensures addictions == ReplaceId(old(addictions), u.id, u)
      ensures selected == Some(u)
    {
      addictions := ReplaceId(addictions, u.id, u);
      selected := Some(u);
    }

    /** handleResetAddiction: the first record with the id restarts now and replaces every
        record with that id; an unknown id changes nothing. */
    method ResetAddiction(id: string, now: int)
      requires Valid()
      modifies this`addictions, this`selected
      ensures Valid()
      ensures FindId(old(addictions), id).None? ==>
                addictions == old(addictions) && selected == old(selected)
      ensures FindId(old(addictions), id).Some? ==>
                var r := Restarted(FindId(old(addictions), id).value, now);
                addictions == ReplaceId(old(addictions), id, r) && selected == Some(r)
    {
      var found := FindId(addictions, id);
      if found.Some? {
        var r := Restarted(found.value, now);
        addictions := ReplaceId(addictions, id, r);
        selected := Some(r);
      }
    }

    method OpenSettings()
      requires Valid()
      modifies this`screen
      ensures Valid()
      ensures screen == Settings
    {
      screen := Settings;
    }

    method CloseSettings()
      requires Valid()
      modifies this`screen
      ensures Valid()
      ensures screen == Dashboard
    {
      screen := Dashboard;
    }

    method AddNew()
      requires Valid()
      modifies this`screen
      ensures Valid()
      ensures screen == Setup
    {
      screen := Setup;
    }

    method OpenChat()
      requires Valid()
      modifies this`screen
      ensures Valid()
      ensures screen == Chat
    {
      screen := Chat;
    }

    method CloseChat()
      requires Valid()
      modifies this`screen
      ensures Valid()
      ensures screen == Dashboard
    {
      screen := Dashboard;
    }

    method OpenPremium()
      requires Valid()
      modifies this`screen
      ensures Valid()
      ensures screen == Premium
    {
      screen := Premium;
    }

    method ClosePremium()
      requires Valid()
      modifies this`screen
      ensures Valid()
      ensures screen == Dashboard
    {
      screen := Dashboard;
    }
  }

  /** A restart seen from the list: the restarted record is what a lookup now finds, it starts
      now with no relapses, and records with other ids are exactly as they were. */
  method RestartScenario(s: seq<Addiction>, id: string, now: int)
    returns (before: seq<Addiction>, after: seq<Addiction>)
    requires FindId(s, id).Some?
    ensures before == s
    ensures FindId(after, id).Some? && FindId(after, id).value.startDate == now
    ensures FindId(after, id).value.relapses == []
    ensures |after| == |before|
    ensures forall i :: 0 <= i < |before| && before[i].id != id ==> after[i] == before[i]
  {
    var app := new App();
    app.Load(Some(s));
    before := app.addictions;
    app.ResetAddiction(id, now);
    after := app.addictions;
    var r := Restarted(FindId(s, id).value, now);
    assert r.id == id;
    FindAfterReplace(s, id, r);
  }
}
