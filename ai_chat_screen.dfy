/** The support chat screen: its opening message, built from the total of clean days across
    all addictions, and its send action, which is switched off. */
module AIChatScreen {
  import opened Types
  import Numerals

  datatype Role = User | Assistant

  datatype Message = Message(id: string, role: Role, content: string, timestamp: int)

  /** Whole days from start to now, floored; a start in the future gives a negative count. */
  function DaysSince(start: int, now: int): int
  {
    (now - start) / MS_PER_DAY
  }

  /** addictions.reduce((acc, a) => acc + days(a), acc), left to right. */
  function SumDays(s: seq<Addiction>, now: int, acc: int): int
  {
    if s == [] then acc else SumDays(s[1..], now, acc + DaysSince(s[0].startDate, now))
  }

  /** totalDays: the fold started at 0. The empty list totals 0 and a single record totals
      its own day count. */
  function TotalDays(s: seq<Addiction>, now: int): (total: int)
    ensures s == [] ==> total == 0
    ensures |s| == 1 ==> total == DaysSince(s[0].startDate, now)
  {
    assert |s| == 1 ==> s[1..] == [] && SumDays(s[1..], now, DaysSince(s[0].startDate, now))
                                       == DaysSince(s[0].startDate, now);
    SumDays(s, now, 0)
  }

  /** The fold carries its accumulator through unchanged. */
  lemma {:induction false} SumDaysShift(s: seq<Addiction>, now: int, acc: int)
    ensures SumDays(s, now, acc) == acc + TotalDays(s, now)
  {
    if s != [] {
      SumDaysShift(s[1..], now, acc + DaysSince(s[0].startDate, now));
      SumDaysShift(s[1..], now, DaysSince(s[0].startDate, now));
    }
  }

  /** The total is additive: each part of the list contributes its own total, and the empty
      list contributes 0. */
  lemma {:induction false} TotalDaysAppend(s: seq<Addiction>, t: seq<Addiction>, now: int)
    ensures TotalDays(s + t, now) == TotalDays(s, now) + TotalDays(t, now)
    ensures TotalDays([], now) == 0
  {
    if s == [] {
      assert s + t == t;
    } else {
      assert (s + t)[1..] == s[1..] + t;
      SumDaysShift(s + t, now, 0);
      SumDaysShift((s + t)[1..], now, DaysSince(s[0].startDate, now));
      SumDaysShift(s[1..], now, DaysSince(s[0].startDate, now));
      TotalDaysAppend(s[1..], t, now);
    }
  }

  /** Nothing is clamped: with every start in the past the total is at least 0, but one start
      a day or more in the future pulls a one-record total below 0. */
  lemma {:induction false} TotalDaysSign(s: seq<Addiction>, now: int, a: Addiction)
    ensures (forall i :: 0 <= i < |s| ==> s[i].startDate <= now) ==> TotalDays(s, now) >= 0
    ensures a.startDate >= now + MS_PER_DAY ==> TotalDays([a], now) < 0
  {
    if s != [] {
      TotalDaysSign(s[1..], now, a);
      SumDaysShift(s[1..], now, DaysSince(s[0].startDate, now));
    }
    assert [a][1..] == [];
    assert SumDays([a], now, 0) == SumDays([], now, DaysSince(a.startDate, now));
  }

  const DEFAULT_GREETING: string :=
    "Olá! Sou seu " + "assistente de apoio. Estou aqui para te ajudar a manter-se firme na sua jornada. Como você está se sentindo hoje? 💙"

  const GREETING_PREFIX: string := "Olá! Vi que você já está há "

  const GREETING_SUFFIX: string :=
    " dias na sua jornada de superação. Isso é incrível! 🌟 Como posso te ajudar hoje?"

  /** The opening line: the fixed greeting for an empty list, otherwise one naming totalDays. */
  function Greeting(s: seq<Addiction>, now: int): (g: string)
    ensures |s| == 0 ==> g == DEFAULT_GREETING
    ensures |s| > 0 ==> g == GREETING_PREFIX + Numerals.IntToString(TotalDays(s, now)) + GREETING_SUFFIX
  {
    if |s| > 0 then GREETING_PREFIX + Numerals.IntToString(TotalDays(s, now)) + GREETING_SUFFIX
    else DEFAULT_GREETING
  }

  /** Two non-empty lists get the same greeting exactly when their totals agree, so the
      greeting tells the user the total and nothing else. */
  lemma GreetingNamesTotal(s: seq<Addiction>, t: seq<Addiction>, now: int)
    requires |s| > 0 && |t| > 0
    ensures Greeting(s, now) == Greeting(t, now) <==> TotalDays(s, now) == TotalDays(t, now)
  {
    var ns, nt := Numerals.IntToString(TotalDays(s, now)), Numerals.IntToString(TotalDays(t, now));
    if Greeting(s, now) == Greeting(t, now) {
      var gs, gt := Greeting(s, now), Greeting(t, now);
      assert gs[|GREETING_PREFIX|..|gs| - |GREETING_SUFFIX|] == ns;
      assert gt[|GREETING_PREFIX|..|gt| - |GREETING_SUFFIX|] == nt;
      Numerals.IntToStringInjective(TotalDays(s, now), TotalDays(t, now));
    }
  }

  /** The empty list's greeting is never one of the counting greetings. */
  lemma GreetingDistinguishesEmpty(s: seq<Addiction>, now: int)
    requires |s| > 0
    ensures Greeting(s, now) != Greeting([], now)
  {
    var g := Greeting(s, now);
    assert g[..|GREETING_PREFIX|] == GREETING_PREFIX;
    assert GREETING_PREFIX[5] == 'V';
    assert DEFAULT_GREETING[..8] == "Olá! Sou";
  }

  class ChatScreen {
    var messages: seq<Message>
    var input: string

    constructor ()
      ensures messages == [] && input == ""
    {
      messages := [];
      input := "";
    }

    /** The effect that runs whenever the list changes: one assistant message, id "1". */
    method Greet(s: seq<Addiction>, now: int)
      modifies this`messages
      ensures messages == [Message("1", Assistant, Greeting(s, now), now)]
    {
      messages := [Message("1", Assistant, Greeting(s, now), now)];
    }

    /** handleSend: sending is switched off, so nothing changes. */
    method Send()
      ensures messages == old(messages) && input == old(input)
    {
    }
  }
}
