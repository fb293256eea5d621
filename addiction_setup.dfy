/** The four-step setup wizard: its step counter, its form, the proceed guard and the record it
    builds when it completes. */
module AddictionSetup {
  import opened Types
  import Numerals

  const TOTAL_STEPS: int := 4

  /** The wizard's form; money, time and event are the texts as typed. */
  datatype FormData = FormData(
    name: string,
    kind: Kind,
    category: string,
    lossType: seq<string>,
    money: string,
    time: string,
    event: string,
    startDate: int,
    startTime: string,
    emoji: string,
    color: string
  )

  /** The form as the wizard opens it, for the instant and clock text it opens at. */
  function InitialForm(today: int, clock: string): FormData
  {
    FormData("", Vicio, "", [], "", "", "", today, clock, "🚭", "blue")
  }

  /** One input's onChange: the form with that one field replaced. */
  datatype FormEdit =
    | SetName(name: string)
    | SetKind(kind: Kind)
    | SetCategory(category: string)
    | SetMoney(money: string)
    | SetTime(time: string)
    | SetEvent(event: string)
    | SetStartDate(startDate: int)
    | SetStartTime(startTime: string)
    | SetEmoji(emoji: string)
    | SetColor(color: string)

  function ApplyEdit(f: FormData, e: FormEdit): (g: FormData)
    ensures g.lossType == f.lossType
  {
    match e
    case SetName(v) => f.(name := v)
    case SetKind(v) => f.(kind := v)
    case SetCategory(v) => f.(category := v)
    case SetMoney(v) => f.(money := v)
    case SetTime(v) => f.(time := v)
    case SetEvent(v) => f.(event := v)
    case SetStartDate(v) => f.(startDate := v)
    case SetStartTime(v) => f.(startTime := v)
    case SetEmoji(v) => f.(emoji := v)
    case SetColor(v) => f.(color := v)
  }

  /** The header bar: step / 4 * 100. */
  function StepProgress(step: int): (p: real)
    ensures 1 <= step <= TOTAL_STEPS ==> 0.0 < p <= 100.0
    ensures p == 100.0 <==> step == TOTAL_STEPS
  {
    step as real / TOTAL_STEPS as real * 100.0
  }

  /** canProceed: a category on step 1, at least one loss type on step 2, anything later. */
  function CanProceed(step: int, f: FormData): (ok: bool)
    ensures ok <==> (step == 1 ==> f.category != "") && (step == 2 ==> |f.lossType| > 0)
  {
    if step == 1 then f.category != ""
    else if step == 2 then |f.lossType| > 0
    else true
  }

  /** lossType.filter(t => t !== type) */
  function Without(s: seq<string>, t: string): (r: seq<string>)
    ensures forall u :: u in r <==> u in s && u != t
    ensures t !in s ==> r == s
  {
    if s == [] then [] else (if s[0] == t then [] else [s[0]]) + Without(s[1..], t)
  }

  /** toggleLossType: remove every occurrence when present, append otherwise. A toggle flips
      the membership of its own type and leaves every other type alone. */
  function Toggled(s: seq<string>, t: string): (r: seq<string>)
    ensures t in r <==> t !in s
    ensures forall u :: u != t ==> (u in r <==> u in s)
  {
    if t in s then Without(s, t) else s + [t]
  }

  /** Toggling twice restores membership, and restores the list itself when the type was
      absent at first (when present, it comes back at the end). */
  lemma ToggleTwice(s: seq<string>, t: string)
    ensures forall u :: u in Toggled(Toggled(s, t), t) <==> u in s
    ensures t !in s ==> Toggled(Toggled(s, t), t) == s
    ensures t in s ==> Toggled(Toggled(s, t), t) == Without(s, t) + [t]
  {
    if t !in s {
      WithoutAppended(s, t);
    }
  }

  lemma {:induction false} WithoutAppended(s: seq<string>, t: string)
    requires t !in s
    ensures Without(s + [t], t) == s
  {
    if s == [] {
      assert [t][1..] == [];
    } else {
      assert (s + [t])[1..] == s[1..] + [t];
      WithoutAppended(s[1..], t);
    }
  }

  predicate Distinct(s: seq<string>)
  {
    forall i, j :: 0 <= i < j < |s| ==> s[i] != s[j]
  }

  /** A list without repeats keeps none after a toggle. */
  lemma ToggleKeepsDistinct(s: seq<string>, t: string)
    requires Distinct(s)
    ensures Distinct(Toggled(s, t))
  {
    if t in s {
      WithoutKeepsDistinct(s, t);
    } else {
      var r := s + [t];
      forall i, j | 0 <= i < j < |r| ensures r[i] != r[j] {
        if j == |s| {
          assert r[i] in s;
        }
      }
    }
  }

  lemma {:induction false} WithoutKeepsDistinct(s: seq<string>, t: string)
    requires Distinct(s)
    ensures Distinct(Without(s, t))
  {
    if s != [] {
      DistinctTail(s);
      WithoutKeepsDistinct(s[1..], t);
      var rest := Without(s[1..], t);
      if s[0] != t {
        assert Without(s, t) == [s[0]] + rest;
        DistinctCons(s[0], rest);
      } else {
        assert Without(s, t) == rest;
      }
    }
  }

  lemma DistinctTail(s: seq<string>)
    requires Distinct(s) && s != []
    ensures Distinct(s[1..]) && s[0] !in s[1..]
  {
    forall i, j | 0 <= i < j < |s[1..]| ensures s[1..][i] != s[1..][j] {
      assert s[1..][i] == s[i + 1] && s[1..][j] == s[j + 1];
    }
  }

  lemma DistinctCons(x: string, s: seq<string>)
    requires Distinct(s) && x !in s
    ensures Distinct([x] + s)
  {
    var r := [x] + s;
    forall i, j | 0 <= i < j < |r| ensures r[i] != r[j] {
      if i == 0 {
        assert r[j] == s[j - 1];
      } else {
        assert r[i] == s[i - 1] && r[j] == s[j - 1];
      }
    }
  }

  /** handleComplete: the record the wizard hands to onComplete. The id is the instant's
      numeral, the name falls back to the category, an empty text becomes an absent loss, and
      `parse` stands for parseFloat. */
  function BuildAddiction(f: FormData, nowMs: nat, parse: string -> real): (a: Addiction)
    ensures a.id == Numerals.NatToString(nowMs)
    ensures a.name == if f.name != "" then f.name else f.category
    ensures a.losses.money == if f.money != "" then Some(parse(f.money)) else None
    ensures a.losses.time == if f.time != "" then Some(f.time) else None
    ensures a.losses.event == if f.event != "" then Some(f.event) else None
    ensures a.relapses == []
    ensures a.kind == f.kind && a.category == f.category && a.startDate == f.startDate
    ensures a.startTime == f.startTime && a.emoji == f.emoji && a.color == f.color
  {
    Addiction(
      id := Numerals.NatToString(nowMs),
      name := if f.name != "" then f.name else f.category,
      kind := f.kind,
      category := f.category,
      losses := Losses(
        money := if f.money != "" then Some(parse(f.money)) else None,
        time := if f.time != "" then Some(f.time) else None,
        event := if f.event != "" then Some(f.event) else None),
      startDate := f.startDate,
      startTime := f.startTime,
      emoji := f.emoji,
      color := f.color,
      relapses := [])
  }

  /** The selected loss types only decide which inputs are shown: the record is built from the
      texts whatever is toggled. */
  lemma BuildIgnoresLossType(f: FormData, l: seq<string>, nowMs: nat, parse: string -> real)
    ensures BuildAddiction(f.(lossType := l), nowMs, parse) == BuildAddiction(f, nowMs, parse)
  {
  }

  /** Records built at different milliseconds get different ids, and a record built after
      passing step 1 always has a non-empty name. */
  lemma BuiltRecordFacts(f: FormData, m: nat, n: nat, parse: string -> real)
    ensures m != n ==> BuildAddiction(f, m, parse).id != BuildAddiction(f, n, parse).id
    ensures CanProceed(1, f) ==> BuildAddiction(f, m, parse).name != ""
  {
    Numerals.NatToStringInjective(m, n);
  }

  class SetupWizard {
    var step: int
    var form: FormData

    ghost predicate Valid()
      reads this
    {
      1 <= step <= TOTAL_STEPS
    }

    constructor (today: int, clock: string)
      ensures Valid() && step == 1 && form == InitialForm(today, clock)
    {
      step := 1;
      form := InitialForm(today, clock);
    }

    /** handleNext: advance, or on the last step complete with the built record. */
    method Next(nowMs: nat, parse: string -> real) returns (done: Option<Addiction>)
      requires Valid()
      modifies this`step
      ensures Valid()
      ensures old(step) < TOTAL_STEPS ==> step == old(step) + 1 && done == None
      ensures old(step) == TOTAL_STEPS ==>
                step == TOTAL_STEPS && done == Some(BuildAddiction(form, nowMs, parse))
    {
      if step < TOTAL_STEPS {
        step := step + 1;
        done := None;
      } else {
        done := Some(BuildAddiction(form, nowMs, parse));
      }
    }

    /** The "Próximo"/"Concluir" button: disabled, and so doing nothing, while the guard fails. */
    method PressNext(nowMs: nat, parse: string -> real) returns (done: Option<Addiction>)
      requires Valid()
      modifies this`step
      ensures Valid()
      ensures !CanProceed(old(step), form) ==> step == old(step) && done == None
      ensures CanProceed(old(step), form) && old(step) < TOTAL_STEPS ==>
                step == old(step) + 1 && done == None
      ensures CanProceed(old(step), form) && old(step) == TOTAL_STEPS ==>
                step == TOTAL_STEPS && done == Some(BuildAddiction(form, nowMs, parse))
    {
      if CanProceed(step, form) {
        done := Next(nowMs, parse);
      } else {
        done := None;
      }
    }

    /** handleBack: step back, or on the first step leave the wizard (exit is onBack). */
    method Back() returns (exit: bool)
      requires Valid()
      modifies this`step
      ensures Valid()
      ensures exit <==> old(step) == 1
      ensures step == if old(step) > 1 then old(step) - 1 else old(step)
    {
      if step > 1 {
        step := step - 1;
        exit := false;
      } else {
        exit := true;
      }
    }

    method ToggleLossType(t: string)
      modifies this`form
      ensures form == old(form).(lossType := Toggled(old(form).lossType, t))
    {
      form := form.(lossType := Toggled(form.lossType, t));
    }

    method Edit(e: FormEdit)
      modifies this`form
      ensures form == ApplyEdit(old(form), e)
    {
      form := ApplyEdit(form, e);
    }
  }
}
