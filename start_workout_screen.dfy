/** `StartWorkoutScreen`: the sets and reps text fields with their digit-only
    filter and parse, the rest-interval slider, the totals handed to the info
    card, and the card's "M min S sec" duration text. Compose layout, animation
    and navigation are not modelled. */
module Home {
  import opened JavaInts

  // ---------------------------------------------------------------------------
  // Decimal text
  // ---------------------------------------------------------------------------

  /** `\d` in a Kotlin regular expression: an ASCII digit. */
  predicate IsDigit(c: char) {
    '0' <= c <= '9'
  }

  /** `text.matches(Regex("\\d*"))`: the whole text is digits, possibly none. */
  predicate AllDigits(s: string) {
    forall i :: 0 <= i < |s| ==> IsDigit(s[i])
  }

  function DigitValue(c: char): nat
    requires IsDigit(c)
  {
    (c as int) - ('0' as int)
  }

  function DigitChar(d: nat): (c: char)
    requires d < 10
    ensures IsDigit(c) && DigitValue(c) == d
  {
    (('0' as int) + d) as char
  }

  /** The value of a digit string read in base 10. */
  function DecimalValue(s: string): nat
    requires AllDigits(s)
    decreases |s|
  {
    if s == [] then 0
    else DecimalValue(s[..|s| - 1]) * 10 + DigitValue(s[|s| - 1])
  }

  /** Kotlin's string template of a non-negative `Int`: its decimal digits. */
  function NatToString(n: nat): (s: string)
    decreases n
  {
    if n < 10 then [DigitChar(n)]
    else NatToString(n / 10) + [DigitChar(n % 10)]
  }

  /** Rendering a number and reading it back gives the number. */
  lemma {:induction false} NatToStringRoundTrip(n: nat)
    ensures var s := NatToString(n);
      && |s| > 0 && AllDigits(s) && DecimalValue(s) == n
    decreases n
  {
    if n >= 10 {
      NatToStringRoundTrip(n / 10);
      var s := NatToString(n);
      assert s[..|s| - 1] == NatToString(n / 10);
    }
  }

  // ---------------------------------------------------------------------------
  // The form fields
  // ---------------------------------------------------------------------------

  /** `value.toInt()` guarded by `value.isEmpty()`; `toInt` throws
      `NumberFormatException` for a value beyond `Int.MAX_VALUE`. */
  datatype ParsedField = Parsed(value: int) | NumberFormatError

  function ParseField(s: string): (r: ParsedField)
    requires AllDigits(s)
    ensures s == "" ==> r == Parsed(0)
    ensures s != "" ==> (r.Parsed? <==> DecimalValue(s) <= IntMax)
    ensures r.Parsed? ==> 0 <= r.value <= IntMax && (s != "" ==> r.value == DecimalValue(s))
  {
    if s == "" then Parsed(0)
    else if DecimalValue(s) <= IntMax then Parsed(DecimalValue(s))
    else NumberFormatError
  }

  /** Every count the screen can show parses back to itself. */
  lemma ParseFieldRoundTrip(n: nat)
    requires n <= IntMax
    ensures AllDigits(NatToString(n)) && ParseField(NatToString(n)) == Parsed(n)
  {
    NatToStringRoundTrip(n);
  }

  /** How a text-field edit ends: filtered out, stored, or crashed in `toInt`. */
  datatype EditOutcome = Rejected | Accepted | Crashed

  // ---------------------------------------------------------------------------
  // Totals and the duration text
  // ---------------------------------------------------------------------------

  /** `reps * sets` as a Kotlin `Int`. */
  function TotalReps(reps: int, sets: int): (r: int)
    ensures InIntRange(r)
    ensures InIntRange(reps * sets) ==> r == reps * sets
  {
    Wrap32(reps * sets)
  }

  /** `interval * (sets - 1)` as a Kotlin `Int`: the rest between sets. */
  function TotalRest(interval: int, sets: int): (r: int)
    ensures InIntRange(r)
    ensures InIntRange(interval * (sets - 1)) ==> r == interval * (sets - 1)
  {
    Wrap32(interval * (sets - 1))
  }

  /** `GetInfoCard`'s `durationText`. */
  function DurationText(totalReps: int, interval: int): string {
    if totalReps == 0 then "0 sec"
    else
      var minutes := Div(interval, 60);
      var seconds := Rem(interval, 60);
      (if minutes > 0 then NatToString(minutes) + " min" else "")
      + (if minutes > 0 && seconds > 0 then " " else "")
      + (if seconds > 0 then NatToString(seconds) + " sec" else "")
      + (if minutes == 0 && seconds == 0 then "0 sec" else "")
  }

  /** No workout, no duration, whatever the interval. */
  lemma DurationWithoutReps(interval: int)
    ensures DurationText(0, interval) == "0 sec"
  {
  }

  /** The four shapes of the duration text for a non-negative interval. */
  lemma DurationTextShapes(totalReps: int, interval: int)
    requires totalReps != 0 && interval >= 0
    ensures var m := interval / 60;
      var s := interval % 60;
      var text := DurationText(totalReps, interval);
      && (m > 0 && s > 0 ==> text == NatToString(m) + " min " + NatToString(s) + " sec")
      && (m > 0 && s == 0 ==> text == NatToString(m) + " min")
      && (m == 0 && s > 0 ==> text == NatToString(s) + " sec")
      && (m == 0 && s == 0 ==> text == "0 sec")
  {
    var m := interval / 60;
    var s := interval % 60;
    if m > 0 && s > 0 {
      assert DurationText(totalReps, interval)
          == (NatToString(m) + " min") + " " + (NatToString(s) + " sec") + "";
      assert (NatToString(m) + " min") + " " + (NatToString(s) + " sec") + ""
          == NatToString(m) + " min " + NatToString(s) + " sec";
    } else if m > 0 {
      assert DurationText(totalReps, interval) == (NatToString(m) + " min") + "" + "" + "";
    } else if s > 0 {
      assert DurationText(totalReps, interval) == "" + "" + (NatToString(s) + " sec") + "";
    } else {
      assert DurationText(totalReps, interval) == "" + "" + "" + "0 sec";
    }
  }

  /** The duration text is never empty when the interval is non-negative. */
  lemma DurationTextNonEmpty(totalReps: int, interval: int)
    requires totalReps == 0 || interval >= 0
    ensures |DurationText(totalReps, interval)| > 0
  {
  }

  // ---------------------------------------------------------------------------
  // Reading the duration text back
  // ---------------------------------------------------------------------------

  predicate NoSpace(w: string) {
    forall i :: 0 <= i < |w| ==> w[i] != ' '
  }

  /** The words of `s` between single spaces. */
  function Words(s: string): (ws: seq<string>)
    ensures |ws| >= 1
    decreases |s|
  {
    if s == [] then [""]
    else
      var rest := Words(s[1..]);
      if s[0] == ' ' then [""] + rest
      else [[s[0]] + rest[0]] + rest[1..]
  }

  lemma {:induction false} WordsOfWord(w: string)
    requires NoSpace(w)
    ensures Words(w) == [w]
    decreases |w|
  {
    if w != [] {
      WordsOfWord(w[1..]);
      assert [w[0]] + w[1..] == w;
    }
  }

  lemma {:induction false} WordsCons(w: string, t: string)
    requires NoSpace(w)
    ensures Words(w + " " + t) == [w] + Words(t)
    decreases |w|
  {
    if w == [] {
      assert w + " " + t == [' '] + t;
      assert (w + " " + t)[1..] == t;
    } else {
      var s := w + " " + t;
      assert s[1..] == w[1..] + " " + t;
      WordsCons(w[1..], t);
      assert [w[0]] + w[1..] == w;
    }
  }

  /** Seconds denoted by a duration text of the card, if it has one of its shapes. */
  function ParseDuration(text: string): Option<int> {
    var ws := Words(text);
    if |ws| == 4 && ws[1] == "min" && ws[3] == "sec" && AllDigits(ws[0]) && AllDigits(ws[2]) then
      Some(DecimalValue(ws[0]) * 60 + DecimalValue(ws[2]))
    else if |ws| == 2 && ws[1] == "min" && AllDigits(ws[0]) then
      Some(DecimalValue(ws[0]) * 60)
    else if |ws| == 2 && ws[1] == "sec" && AllDigits(ws[0]) then
      Some(DecimalValue(ws[0]))
    else
      None
  }

  lemma DigitsHaveNoSpace(s: string)
    requires AllDigits(s)
    ensures NoSpace(s)
  {
  }

  /** The words of "<a> <b>" for two space-free words. */
  lemma WordsOfTwo(a: string, b: string)
    requires NoSpace(a) && NoSpace(b)
    ensures Words(a + " " + b) == [a, b]
  {
    WordsCons(a, b);
    WordsOfWord(b);
  }

  /** The words of "<a> min <b> sec" for two space-free words. */
  lemma WordsOfMinutesAndSeconds(a: string, b: string)
    requires NoSpace(a) && NoSpace(b)
    ensures Words(a + " min " + b + " sec") == [a, "min", b, "sec"]
  {
    assert a + " min " + b + " sec" == a + " " + ("min" + " " + (b + " " + "sec"));
    WordsOfTwo(b, "sec");
    WordsCons("min", b + " " + "sec");
    WordsCons(a, "min" + " " + (b + " " + "sec"));
  }

  lemma MinutesAndSecondsRoundTrip(m: nat, s: nat)
    requires m > 0 && s > 0
    ensures ParseDuration(NatToString(m) + " min " + NatToString(s) + " sec") == Some(m * 60 + s)
  {
    NatToStringRoundTrip(m);
    NatToStringRoundTrip(s);
    DigitsHaveNoSpace(NatToString(m));
    DigitsHaveNoSpace(NatToString(s));
    WordsOfMinutesAndSeconds(NatToString(m), NatToString(s));
  }

  lemma UnitRoundTrip(n: nat, unit: string)
    requires unit == "min" || unit == "sec"
    ensures var ws := Words(NatToString(n) + " " + unit);
      |ws| == 2 && AllDigits(ws[0]) && DecimalValue(ws[0]) == n && ws[1] == unit
  {
    NatToStringRoundTrip(n);
    DigitsHaveNoSpace(NatToString(n));
    WordsOfTwo(NatToString(n), unit);
  }

  lemma MinutesRoundTrip(m: nat)
    ensures ParseDuration(NatToString(m) + " min") == Some(m * 60)
  {
    assert NatToString(m) + " min" == NatToString(m) + " " + "min";
    UnitRoundTrip(m, "min");
  }

  lemma SecondsRoundTrip(s: nat)
    ensures ParseDuration(NatToString(s) + " sec") == Some(s)
  {
    assert NatToString(s) + " sec" == NatToString(s) + " " + "sec";
    UnitRoundTrip(s, "sec");
  }

  /** The card's duration text denotes exactly the rest interval it was built from. */
  lemma DurationTextRoundTrip(totalReps: int, interval: int)
    requires totalReps != 0 && interval >= 0
    ensures ParseDuration(DurationText(totalReps, interval)) == Some(interval)
  {
    var m := interval / 60;
    var s := interval % 60;
    DurationTextShapes(totalReps, interval);
    if m > 0 && s > 0 {
      MinutesAndSecondsRoundTrip(m, s);
    } else if m > 0 {
      MinutesRoundTrip(m);
    } else if s > 0 {
      SecondsRoundTrip(s);
    } else {
      assert NatToString(0) == "0";
      SecondsRoundTrip(0);
    }
  }

  /** With the slider's 0..60 range, a non-zero total means at least one set,
      and the rest being shown lies between 0 and 60 per extra set as long as
      that bound fits in an `Int`. */
  lemma RestWithinSliderBound(reps: int, sets: int, interval: int)
    requires 0 <= interval <= 60 && 0 <= reps && 0 <= sets
    requires TotalReps(reps, sets) != 0
    requires 60 * (sets - 1) <= IntMax
    ensures sets >= 1
    ensures 0 <= TotalRest(interval, sets) <= 60 * (sets - 1)
  {
    assert TotalReps(reps, 0) == 0;
    MulBound(interval, 60, sets - 1);
  }

  lemma MulBound(a: int, b: int, c: int)
    requires 0 <= a <= b && 0 <= c
    ensures 0 <= a * c <= b * c
  {
  }

  // ---------------------------------------------------------------------------
  // Findings: Int overflow in the form
  // ---------------------------------------------------------------------------

  /** As written: the text of any value beyond `Int.MAX_VALUE` (such as
      "2147483648") passes the digit filter, and `toInt` throws on it. */
  lemma OverflowingEntryCrashes(n: nat)
    requires n > IntMax
    ensures AllDigits(NatToString(n)) && ParseField(NatToString(n)) == NumberFormatError
  {
    NatToStringRoundTrip(n);
  }

  /** Corrected: an edit is stored only if it is digits whose value fits an
      `Int` (what the filter evidently means to guarantee). */
  predicate AcceptableEdit(s: string) {
    AllDigits(s) && (s == "" || DecimalValue(s) <= IntMax)
  }

  /** Corrected: every stored edit parses, so the callback cannot throw; and
      exactly the digit strings that crash the as-written form are refused. */
  lemma AcceptableEditParses(s: string)
    requires AllDigits(s)
    ensures AcceptableEdit(s) <==> ParseField(s).Parsed?
  {
  }

  /** As written: 35791396 sets at 60 s rest wrap the rest negative, and the
      card shows an empty duration. */
  lemma WrappedRestEmptiesDuration()
    ensures TotalReps(1, 35791396) == 35791396
    ensures TotalRest(60, 35791396) == -2147483596
    ensures DurationText(TotalReps(1, 35791396), TotalRest(60, 35791396)) == ""
  {
  }

  /** As written: 65536 reps of 65536 sets wrap the total to 0. */
  lemma WrappedRepsVanish()
    ensures TotalReps(65536, 65536) == 0
    ensures DurationText(TotalReps(65536, 65536), TotalRest(60, 65536)) == "0 sec"
  {
  }

  /** Corrected totals, computed without wrap-around (as `Long` would for any
      two `Int` field values). */
  function ExactTotalReps(reps: int, sets: int): int {
    reps * sets
  }

  function ExactTotalRest(interval: int, sets: int): int {
    interval * (sets - 1)
  }

  /** Corrected: the total is zero only when there are no reps or no sets. */
  lemma ExactTotalRepsZeroIff(reps: int, sets: int)
    ensures ExactTotalReps(reps, sets) == 0 <==> reps == 0 || sets == 0
  {
  }

  /** Corrected: with field values and a slider value the screen can hold, the
      duration text is never empty and reads back as the exact rest. */
  lemma ExactDurationNeverEmpty(reps: int, sets: int, interval: int)
    requires 0 <= reps <= IntMax && 0 <= sets <= IntMax && 0 <= interval <= 60
    ensures |DurationText(ExactTotalReps(reps, sets), ExactTotalRest(interval, sets))| > 0
    ensures ExactTotalReps(reps, sets) != 0 ==>
      ParseDuration(DurationText(ExactTotalReps(reps, sets), ExactTotalRest(interval, sets)))
        == Some(ExactTotalRest(interval, sets))
  {
    ExactTotalRepsZeroIff(reps, sets);
    if ExactTotalReps(reps, sets) != 0 {
      assert sets >= 1;
      assert ExactTotalRest(interval, sets) >= 0;
      DurationTextNonEmpty(ExactTotalReps(reps, sets), ExactTotalRest(interval, sets));
      DurationTextRoundTrip(ExactTotalReps(reps, sets), ExactTotalRest(interval, sets));
    }
  }

  // ---------------------------------------------------------------------------
  // The screen's state
  // ---------------------------------------------------------------------------

  /** The state `StartWorkoutScreen` remembers, with the `text` of its two
      form fields (titled "Sets" and "Reps") and the slider's own value. */
  class StartWorkoutScreen {
    var interval: int
    var sets: int
    var reps: int
    var setsText: string
    var repsText: string
    var sliderValue: int

    /** What the fields and slider can leave behind: each count is its
        field's value, and the slider stays in 0..60. */
    ghost predicate Valid()
      reads this
    {
      && AllDigits(setsText) && ParseField(setsText) == Parsed(sets)
      && AllDigits(repsText) && ParseField(repsText) == Parsed(reps)
      && 0 <= interval <= 60
      && 0 <= sliderValue <= 60
    }

    /** Opening the screen: everything 0 and empty, though the slider shows 30. */
    constructor ()
      ensures Valid()
      ensures interval == 0 && sets == 0 && reps == 0
      ensures setsText == "" && repsText == "" && sliderValue == 30
    {
      interval := 0;
      sets := 0;
      reps := 0;
      setsText := "";
      repsText := "";
      sliderValue := 30;
    }

    /** `onValueChange` of the field titled `title`, then the screen's callback. */
    method OnFieldValueChange(title: string, newText: string) returns (outcome: EditOutcome)
      requires Valid()
      modifies this
      ensures interval == old(interval) && sliderValue == old(sliderValue)
      ensures !AllDigits(newText) ==>
        && outcome == Rejected
        && setsText == old(setsText) && repsText == old(repsText)
        && sets == old(sets) && reps == old(reps)
      ensures AllDigits(newText) ==>
        && (title == "Sets" ==> setsText == newText && repsText == old(repsText))
        && (title != "Sets" ==> repsText == newText && setsText == old(setsText))
      ensures AllDigits(newText) && ParseField(newText).NumberFormatError? ==>
        outcome == Crashed && sets == old(sets) && reps == old(reps)
      ensures AllDigits(newText) && ParseField(newText).Parsed? ==>
        && outcome == Accepted
        && Valid()
        && (title == "Sets" ==> sets == ParseField(newText).value && reps == old(reps))
        && (title != "Sets" ==> reps == ParseField(newText).value && sets == old(sets))
    {
      if !AllDigits(newText) {
        return Rejected;
      }
      if title == "Sets" {
        setsText := newText;
      } else {
        repsText := newText;
      }
      var parsed := ParseField(newText);
      if parsed.NumberFormatError? {
        return Crashed;
      }
      if title == "Sets" {
        sets := parsed.value;
      } else {
        reps := parsed.value;
      }
      outcome := Accepted;
    }

    /** Corrected `onValueChange`: the filter refuses what `toInt` cannot
        parse, so an edit is either refused untouched or stored and parsed,
        and the screen can never crash. */
    method OnFieldValueChangeCorrected(title: string, newText: string) returns (outcome: EditOutcome)
      requires Valid()
      modifies this
      ensures outcome != Crashed
      ensures Valid()
      ensures interval == old(interval) && sliderValue == old(sliderValue)
      ensures !AcceptableEdit(newText) ==>
        && outcome == Rejected
        && setsText == old(setsText) && repsText == old(repsText)
        && sets == old(sets) && reps == old(reps)
      ensures AcceptableEdit(newText) ==>
        && outcome == Accepted
        && (title == "Sets" ==> setsText == newText && sets == ParseField(newText).value
                                && repsText == old(repsText) && reps == old(reps))
        && (title != "Sets" ==> repsText == newText && reps == ParseField(newText).value
                                && setsText == old(setsText) && sets == old(sets))
    {
      if !AcceptableEdit(newText) {
        return Rejected;
      }
      AcceptableEditParses(newText);
      var parsed := ParseField(newText);
      if title == "Sets" {
        setsText := newText;
        sets := parsed.value;
      } else {
        repsText := newText;
        reps := parsed.value;
      }
      outcome := Accepted;
    }

    /** The slider moved to `value`; `RestIntervalSlider` keeps it in 0..60. */
    method OnSliderValueChange(value: int)
      requires Valid()
      requires 0 <= value <= 60
      modifies this`sliderValue, this`interval
      ensures Valid()
      ensures sliderValue == value && interval == value
    {
      sliderValue := value;
      interval := value;
    }

    /** The duration text of the info card for the current state. */
    function InfoCardDuration(): string
      reads this
    {
      DurationText(TotalReps(reps, sets), TotalRest(interval, sets))
    }
  }

  /** In any state the form can reach, with totals that fit an `Int`, the
      info card's duration text is non-empty and, once there are reps, reads
      back as the total rest. */
  lemma InfoCardDurationReadsBack(screen: StartWorkoutScreen)
    requires screen.Valid()
    requires screen.reps * screen.sets <= IntMax
    requires screen.interval * (screen.sets - 1) <= IntMax
    ensures |screen.InfoCardDuration()| > 0
    ensures screen.reps * screen.sets != 0 ==>
      ParseDuration(screen.InfoCardDuration()) == Some(screen.interval * (screen.sets - 1))
  {
    var reps, sets, interval := screen.reps, screen.sets, screen.interval;
    assert 0 <= reps && 0 <= sets;
    assert TotalReps(reps, sets) == reps * sets;
    if reps * sets != 0 {
      assert sets >= 1;
      MulBound(0, interval, sets - 1);
      assert TotalRest(interval, sets) == interval * (sets - 1);
      DurationTextNonEmpty(reps * sets, interval * (sets - 1));
      DurationTextRoundTrip(reps * sets, interval * (sets - 1));
    }
  }
}
