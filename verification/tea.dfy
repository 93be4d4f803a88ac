/**
 * The Tea Station page: the tea table, the quantity stepper, the brewing
 * state machine driven by a once-a-second tick, and the `m:ss` countdown.
 */
module Tea {
  import opened Opt
  import opened JsString

  datatype TeaType = TeaType(id: string, name: string, brewTime: nat, temperature: string, color: string)

  const TeaTypes: seq<TeaType> := [
    TeaType("black", "Black Tea", 4, "95°C", "bg-amber-900"),
    TeaType("green", "Green Tea", 3, "80°C", "bg-green-600"),
    TeaType("herbal", "Herbal Tea", 5, "100°C", "bg-rose-400"),
    TeaType("oolong", "Oolong Tea", 3, "85°C", "bg-amber-600"),
    TeaType("white", "White Tea", 2, "75°C", "bg-gray-200")
  ]

  /** `teas.find(t => t.id === id)`: the first tea with that id. */
  function FindIn(teas: seq<TeaType>, id: string): (r: Option<TeaType>)
    ensures r.Some? <==> exists k :: 0 <= k < |teas| && teas[k].id == id
    ensures r.Some? ==> r.value in teas && r.value.id == id
  {
    if teas == [] then None
    else if teas[0].id == id then Some(teas[0])
    else
      var r := FindIn(teas[1..], id);
      assert forall k :: 1 <= k < |teas| ==> teas[k] == teas[1..][k - 1];
      r
  }

  function FindTea(id: string): Option<TeaType>
  {
    FindIn(TeaTypes, id)
  }

  /** Every tea in the table brews for two to five minutes, and the ids are distinct. */
  lemma TeaTable()
    ensures forall k :: 0 <= k < |TeaTypes| ==> 2 <= TeaTypes[k].brewTime <= 5
    ensures forall j, k :: 0 <= j < k < |TeaTypes| ==> TeaTypes[j].id != TeaTypes[k].id
  {
    assert TeaTypes[0].id[0] == 'b' && TeaTypes[1].id[0] == 'g' && TeaTypes[2].id[0] == 'h';
    assert TeaTypes[3].id[0] == 'o' && TeaTypes[4].id[0] == 'w';
  }

  // ---------------------------------------------------------------------
  // Quantity

  function StepDown(q: int): (r: int)
    ensures r >= 1
    ensures r == if q - 1 >= 1 then q - 1 else 1
  {
    if 1 >= q - 1 then 1 else q - 1
  }

  function StepUp(q: int): (r: int)
    ensures r <= 10
    ensures r == if q + 1 <= 10 then q + 1 else 10
  {
    if 10 <= q + 1 then 10 else q + 1
  }

  /** `parseInt(input) || 1`, given what `parseInt` returned (`None` for NaN). */
  function TypedQuantity(parsed: Option<int>): (q: int)
    ensures q != 0
    ensures parsed.Some? && parsed.value != 0 ==> q == parsed.value
    ensures parsed.None? || parsed.value == 0 ==> q == 1
  {
    if parsed.None? || parsed.value == 0 then 1 else parsed.value
  }

  /** The buttons keep a quantity within [1, 10]; typing can leave that range. */
  lemma StepsStayInRange(q: int)
    requires 1 <= q <= 10
    ensures 1 <= StepDown(q) <= 10 && 1 <= StepUp(q) <= 10
    ensures TypedQuantity(Some(42)) == 42 && TypedQuantity(Some(-3)) == -3
  {
  }

  // ---------------------------------------------------------------------
  // The countdown text

  /** Minutes, a colon, and the seconds padded to two digits. */
  function ClockText(mins: nat, secs: nat): (t: string)
    requires secs < 60
    ensures |t| >= 4 && t[|t| - 3] == ':'
    ensures IsDigits(t[..|t| - 3]) && IsDigits(t[|t| - 2..])
    ensures ParseNat(t[..|t| - 3]) == mins && ParseNat(t[|t| - 2..]) == secs
    ensures t[0] == '0' <==> mins == 0
    ensures |t| == 4 <==> mins < 10
  {
    var m, p := NatToString(mins), (if secs < 10 then "0" else "") + NatToString(secs);
    PaddedSeconds(secs);
    ParseNatToString(mins);
    var t := m + ":" + p;
    assert t[..|t| - 3] == m && t[|t| - 2..] == p;
    t
  }

  /** `formatTime`: whole minutes, a colon, and the remaining seconds as two digits. */
  function FormatTime(seconds: nat): (t: string)
    ensures |t| >= 4 && t[|t| - 3] == ':'
    ensures IsDigits(t[..|t| - 3]) && IsDigits(t[|t| - 2..])
    ensures ParseNat(t[..|t| - 3]) == seconds / 60 && ParseNat(t[|t| - 2..]) == seconds % 60
    ensures t[0] == '0' <==> seconds < 60
    ensures |t| == 4 <==> seconds < 600
  {
    ClockText(seconds / 60, seconds % 60)
  }

  /** Reads an `m:ss` countdown back as seconds. */
  function ParseTime(t: string): nat
    requires |t| >= 4 && IsDigits(t[..|t| - 3]) && IsDigits(t[|t| - 2..])
  {
    ParseNat(t[..|t| - 3]) * 60 + ParseNat(t[|t| - 2..])
  }

  /** The seconds field: always two digits, and it reads back as the seconds. */
  lemma PaddedSeconds(secs: nat)
    requires secs < 60
    ensures var p := (if secs < 10 then "0" else "") + NatToString(secs);
      |p| == 2 && IsDigits(p) && ParseNat(p) == secs
  {
    var s := NatToString(secs);
    ParseNatToString(secs);
    if secs < 10 {
      var p := "0" + s;
      assert p[..1] == "0";
      assert ParseNat(p[..1]) == ParseNat("0") == 0;
    } else {
      assert s == NatToString(secs / 10) + [DigitChar(secs % 10)];
    }
  }

  /** The countdown text determines the number of seconds. */
  lemma FormatTimeRoundTrip(seconds: nat)
    ensures ParseTime(FormatTime(seconds)) == seconds
  {
  }

  /** Under ten minutes the countdown is four characters: one minute digit and two second digits. */
  lemma ClockTextShort(mins: nat, secs: nat)
    requires mins < 10 && secs < 60
    ensures ClockText(mins, secs) == [DigitChar(mins), ':', DigitChar(secs / 10), DigitChar(secs % 10)]
  {
    var m, s := NatToString(mins), NatToString(secs);
    assert m == [DigitChar(mins)];
    if secs < 10 {
      assert s == [DigitChar(secs)] && secs / 10 == 0 && DigitChar(0) == '0';
    } else {
      assert s == NatToString(secs / 10) + [DigitChar(secs % 10)];
      assert NatToString(secs / 10) == [DigitChar(secs / 10)];
    }
  }

  /** Four minutes show as `4:00`. */
  lemma FormatTimeFourMinutes()
    ensures FormatTime(240) == "4:00"
  {
    assert FormatTime(240) == ClockText(4, 0);
    ClockTextShort(4, 0);
    assert DigitChar(4) == '4' && DigitChar(0) == '0';
  }

  /** Sixty-five seconds show as `1:05`. */
  lemma FormatTimeSixtyFive()
    ensures FormatTime(65) == "1:05"
  {
    assert FormatTime(65) == ClockText(1, 5);
    ClockTextShort(1, 5);
    assert DigitChar(1) == '1' && DigitChar(0) == '0' && DigitChar(5) == '5';
  }

  // ---------------------------------------------------------------------
  // Brewing

  /** The brewing part of the page state; `timerRunning` says the interval is active. */
  datatype BrewState = BrewState(isPreparing: bool, isDone: bool, timeLeft: int, timerRunning: bool)

  /** What the page keeps true: never both brewing and done, and a live timer has time left. */
  predicate BrewInvariant(s: BrewState)
  {
    && !(s.isPreparing && s.isDone)
    && s.timeLeft >= 0
    && (s.timerRunning ==> s.isPreparing && s.timeLeft >= 1)
  }

  /** The interval callback: count down, or finish at one second or less. */
  function TickStep(s: BrewState): (r: BrewState)
    requires BrewInvariant(s) && s.timerRunning
    ensures BrewInvariant(r)
    ensures s.timeLeft > 1 ==> r == s.(timeLeft := s.timeLeft - 1)
    ensures s.timeLeft <= 1 ==> r == BrewState(false, true, 0, false)
  {
    if s.timeLeft <= 1 then s.(timeLeft := 0, isPreparing := false, isDone := true, timerRunning := false)
    else s.(timeLeft := s.timeLeft - 1)
  }

  /** The state after `n` ticks, as long as the timer keeps running. */
  function Ticks(s: BrewState, n: nat): BrewState
    requires BrewInvariant(s)
  {
    if n == 0 then s
    else
      var before := Ticks(s, n - 1);
      if before.timerRunning then TickStep(before) else before
  }

  lemma {:induction false} TicksInvariant(s: BrewState, n: nat)
    requires BrewInvariant(s)
    ensures BrewInvariant(Ticks(s, n))
  {
    if n > 0 {
      TicksInvariant(s, n - 1);
    }
  }

  /** Before the last second each tick takes one second off. */
  lemma {:induction false} TicksCountDown(s: BrewState, n: nat)
    requires BrewInvariant(s) && s.timerRunning && n < s.timeLeft
    ensures Ticks(s, n) == s.(timeLeft := s.timeLeft - n)
  {
    if n > 0 {
      TicksCountDown(s, n - 1);
    }
  }

  /** A brew started with `T` seconds is done after exactly `T` ticks and not before. */
  lemma BrewTakesExactlyT(s: BrewState)
    requires BrewInvariant(s) && s.timerRunning
    ensures forall n :: 0 <= n < s.timeLeft ==> Ticks(s, n).isPreparing && !Ticks(s, n).isDone
    ensures Ticks(s, s.timeLeft) == BrewState(false, true, 0, false)
  {
    forall n | 0 <= n < s.timeLeft ensures Ticks(s, n).isPreparing && !Ticks(s, n).isDone {
      TicksCountDown(s, n);
    }
    TicksCountDown(s, s.timeLeft - 1);
  }

  // ---------------------------------------------------------------------
  // The page's state

  class TeaStation {
    var selectedTea: string
    var quantity: int
    var isPreparing: bool
    var isDone: bool
    var timeLeft: int
    /** Whether the brewing interval is active. */
    var timerRunning: bool

    function Brew(): BrewState
      reads this
    {
      BrewState(isPreparing, isDone, timeLeft, timerRunning)
    }

    ghost predicate Valid()
      reads this
    {
      BrewInvariant(Brew())
    }

    constructor ()
      ensures Valid() && selectedTea == "" && quantity == 1
      ensures Brew() == BrewState(false, false, 0, false)
    {
      selectedTea := "";
      quantity := 1;
      isPreparing, isDone, timeLeft, timerRunning := false, false, 0, false;
    }

    /** `handleTeaSelect` and the guide's Select buttons: clear "done", leave brewing alone. */
    method SelectTea(value: string)
      requires Valid()
      modifies this`selectedTea, this`isDone
      ensures Valid() && selectedTea == value && !isDone
    {
      selectedTea := value;
      isDone := false;
    }

    /**
     * `handlePrepareTea`, reachable while not brewing. Reports a missing
     * selection and changes nothing; otherwise starts brewing, with a
     * timer only when the selection names a known tea.
     */
    method PrepareTea() returns (missingSelection: bool)
      requires Valid() && !isPreparing
      modifies this`isPreparing, this`isDone, this`timeLeft, this`timerRunning
      ensures Valid()
      ensures missingSelection <==> selectedTea == ""
      ensures missingSelection ==> Brew() == old(Brew())
      ensures !missingSelection && FindTea(selectedTea).Some? ==>
        Brew() == BrewState(true, false, FindTea(selectedTea).value.brewTime * 60, true)
      ensures !missingSelection && FindTea(selectedTea).None? ==>
        Brew() == BrewState(true, false, old(timeLeft), false)
    {
      if selectedTea == "" {
        return true;
      }
      isPreparing := true;
      isDone := false;
      var tea := FindTea(selectedTea);
      if tea.None? {
        return false;
      }
      TeaTable();
      timeLeft := tea.value.brewTime * 60;
      timerRunning := true;
      return false;
    }

    /** One firing of the brewing interval. */
    method Tick()
      requires Valid() && timerRunning
      modifies this`isPreparing, this`isDone, this`timeLeft, this`timerRunning
      ensures Valid() && Brew() == TickStep(old(Brew()))
    {
      if timeLeft <= 1 {
        timerRunning := false;
        isPreparing := false;
        isDone := true;
        timeLeft := 0;
      } else {
        timeLeft := timeLeft - 1;
      }
    }

    /** The quantity controls are disabled while brewing. */
    method DecreaseQuantity()
      requires !isPreparing
      modifies this`quantity
      ensures quantity == StepDown(old(quantity))
    {
      quantity := StepDown(quantity);
    }

    /** The quantity controls are disabled while brewing. */
    method IncreaseQuantity()
      requires !isPreparing
      modifies this`quantity
      ensures quantity == StepUp(old(quantity))
    {
      quantity := StepUp(quantity);
    }

    /** The quantity controls are disabled while brewing. */
    method TypeQuantity(parsed: Option<int>)
      requires !isPreparing
      modifies this`quantity
      ensures quantity == TypedQuantity(parsed)
    {
      quantity := TypedQuantity(parsed);
    }
  }
}
