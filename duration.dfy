/** The duration helpers of helpers.py: `timdelta_to_duration` turns the many
    shapes a duration can arrive in into Home Assistant's duration dictionary
    (days / hours / minutes / seconds / milliseconds, zero parts left out), and
    `duration_to_timedelta` goes the other way.

    The model counts in whole milliseconds and whole input numbers; the
    float arithmetic of the source is not modelled. Home Assistant's
    `cv.time_period` and Python's `float()` on a piece of text are passed in
    as functions (None meaning that they raise). */
module Durations {
  import opened Values

  /** helpers.py imports these from const.py, where they are not defined in
      the files this model covers; the model takes them to be the number of
      milliseconds in each unit. */
  const MS_PER_SECOND: int := 1000
  const MS_PER_MINUTE: int := 60_000
  const MS_PER_HOUR: int := 3_600_000
  const MS_PER_DAY: int := 86_400_000

  const DAYS: string := "days"
  const HOURS: string := "hours"
  const MINUTES: string := "minutes"
  const SECONDS: string := "seconds"
  const MILLISECONDS: string := "milliseconds"

  /** The argument of the helpers, by the Python type it has at run time. */
  datatype DurationValue =
    | DNone
    | DDelta(td: Timedelta)
    | DNumber(seconds: int)       // an int, a bool or a whole float
    | DText(text: string)
    | DParts(parts: Dict)
    | DOther                      // any other type

  /** What `cv.time_period` does with a value: return a timedelta, raise one
      of the exceptions helpers.py:90 catches (TypeError, AttributeError,
      ValueError, KeyError), or reject the value in some other way (a
      voluptuous `Invalid`), which no caller catches. */
  datatype Period = Period(td: Timedelta) | PeriodCaught | PeriodInvalid

  /** `cv.time_period` on a string or any other value. */
  type TimePeriod = DurationValue -> Period

  /** `float()` on one piece of a duration string, for pieces holding a whole
      number; None when it raises ValueError. */
  type Number = string -> Option<int>

  /** What `timdelta_to_duration` does: return a dictionary, raise
      ValueError out of `float()` in the string fallback, or let a rejection
      by `cv.time_period` that it does not catch escape. */
  datatype Converted = Returned(d: Dict) | RaisedValueError | RaisedInvalid

  // ----- decomposition of a millisecond count -----

  datatype Parts = Parts(days: int, hours: int, minutes: int, seconds: int, milliseconds: int)

  function PartsMs(p: Parts): int
  {
    p.days * MS_PER_DAY + p.hours * MS_PER_HOUR + p.minutes * MS_PER_MINUTE
    + p.seconds * MS_PER_SECOND + p.milliseconds
  }

  /** helpers.py:114-117: repeated `divmod` (Python floors, as Dafny does for a
      positive divisor). The parts rebuild the count, every part below a day
      is within its unit's range, and a non-negative count has non-negative
      days. */
  function Decompose(totalMs: int): (p: Parts)
    ensures PartsMs(p) == totalMs
    ensures 0 <= p.hours < 24 && 0 <= p.minutes < 60
    ensures 0 <= p.seconds < 60 && 0 <= p.milliseconds < 1000
    ensures totalMs >= 0 ==> p.days >= 0
  {
    var days := totalMs / MS_PER_DAY;
    var r1 := totalMs % MS_PER_DAY;
    var hours := r1 / MS_PER_HOUR;
    var r2 := r1 % MS_PER_HOUR;
    var minutes := r2 / MS_PER_MINUTE;
    var r3 := r2 % MS_PER_MINUTE;
    Parts(days, hours, minutes, r3 / MS_PER_SECOND, r3 % MS_PER_SECOND)
  }

  // ----- dropping zero parts -----

  /** `v != 0` is false for the integer 0 and for False. */
  predicate IsZero(v: Value)
  {
    v == VInt(0) || v == VBool(false)
  }

  predicate HasNonZero(d: Dict)
  {
    exists k :: k in d && !IsZero(d[k])
  }

  /** helpers.py:76-77 and 126-128: the entries whose value is not zero, or
      {"seconds": 0} when none is left. The result is never empty, holds a
      zero only in that one fallback, and otherwise keeps exactly the
      non-zero entries. */
  function NonZero(d: Dict): (r: Dict)
    ensures r != map[]
    ensures HasNonZero(d) ==> r.Keys <= d.Keys && forall k :: k in d ==> (k in r <==> !IsZero(d[k]))
    ensures HasNonZero(d) ==> forall k :: k in r ==> r[k] == d[k] && !IsZero(r[k])
    ensures !HasNonZero(d) ==> r == map[SECONDS := VInt(0)]
  {
    var f := map k | k in d && !IsZero(d[k]) :: d[k];
    if f == map[] then
      assert forall k :: k in d ==> k !in f;
      assert SECONDS in map[SECONDS := VInt(0)];
      map[SECONDS := VInt(0)]
    else
      assert HasNonZero(d) by {
        var k :| k in f;
      }
      f
  }

  function PartsDict(p: Parts): Dict
  {
    map[DAYS := VInt(p.days), HOURS := VInt(p.hours), MINUTES := VInt(p.minutes),
        SECONDS := VInt(p.seconds), MILLISECONDS := VInt(p.milliseconds)]
  }

  /** helpers.py:114-128: a millisecond count as a duration dictionary. */
  function DurationFromMs(totalMs: int): Dict
  {
    NonZero(PartsDict(Decompose(totalMs)))
  }

  /** An integer field of a duration dictionary, 0 when absent. */
  function Field(d: Dict, k: string): int
  {
    if k in d && d[k].VInt? then d[k].i else 0
  }

  /** The duration a dictionary of whole-number parts stands for. */
  function TotalMs(d: Dict): int
  {
    Field(d, DAYS) * MS_PER_DAY + Field(d, HOURS) * MS_PER_HOUR
    + Field(d, MINUTES) * MS_PER_MINUTE + Field(d, SECONDS) * MS_PER_SECOND
    + Field(d, MILLISECONDS)
  }

  /** The form of every dictionary the conversion builds: only the five
      duration keys, integer values, none of them zero, never empty; or
      exactly {"seconds": 0}. */
  predicate Canonical(d: Dict)
  {
    || d == map[SECONDS := VInt(0)]
    || (&& d != map[]
        && d.Keys <= {DAYS, HOURS, MINUTES, SECONDS, MILLISECONDS}
        && forall k :: k in d ==> d[k].VInt? && d[k].i != 0)
  }

  /** The duration dictionary loses nothing: it stands for the very count it
      was built from, it has the canonical form, and a count below one day
      carries no "days" entry. */
  lemma DurationRoundTrip(totalMs: int)
    ensures TotalMs(DurationFromMs(totalMs)) == totalMs
    ensures Canonical(DurationFromMs(totalMs))
    ensures 0 <= totalMs < MS_PER_DAY ==> DAYS !in DurationFromMs(totalMs)
  {
    var p := Decompose(totalMs);
    var full := PartsDict(p);
    var r := DurationFromMs(totalMs);
    if HasNonZero(full) {
      assert Field(r, DAYS) == p.days;
      assert Field(r, HOURS) == p.hours;
      assert Field(r, MINUTES) == p.minutes;
      assert Field(r, SECONDS) == p.seconds;
      assert Field(r, MILLISECONDS) == p.milliseconds;
    } else {
      assert full[DAYS] == VInt(p.days) && full[HOURS] == VInt(p.hours);
      assert full[MINUTES] == VInt(p.minutes) && full[SECONDS] == VInt(p.seconds);
      assert full[MILLISECONDS] == VInt(p.milliseconds);
      assert p == Parts(0, 0, 0, 0, 0);
    }
  }

  // ----- timedelta to milliseconds -----

  /** `round(n / d)` with Python's ties-to-even rule, on exact integers. */
  function RoundHalfEven(n: int, d: int): (q: int)
    requires d > 0
    ensures -d <= 2 * (n - q * d) <= d
  {
    var f := n / d;
    var r := n % d;
    if 2 * r < d then f
    else if 2 * r > d then f + 1
    else if f % 2 == 0 then f
    else f + 1
  }

  /** helpers.py:111-112 for a timedelta: its length in milliseconds, rounded. */
  function DeltaMs(td: Timedelta): int
  {
    RoundHalfEven(td.us, 1000)
  }

  // ----- the string fallback -----

  /** `s.split(sep)`. */
  function Split(s: string, sep: char): (pieces: seq<string>)
    ensures |pieces| >= 1
    ensures forall i :: 0 <= i < |pieces| ==> sep !in pieces[i]
  {
    if s == [] then [[]]
    else
      var rest := Split(s[1..], sep);
      if s[0] == sep then [[]] + rest
      else [[s[0]] + rest[0]] + rest[1..]
  }

  /** `sep.join(pieces)`. */
  function Join(pieces: seq<string>, sep: char): string
    requires |pieces| >= 1
  {
    if |pieces| == 1 then pieces[0] else pieces[0] + [sep] + Join(pieces[1..], sep)
  }

  /** Splitting loses nothing: joining the pieces gives the string back. */
  lemma {:induction false} SplitJoin(s: string, sep: char)
    ensures Join(Split(s, sep), sep) == s
  {
    if s != [] {
      var rest := Split(s[1..], sep);
      SplitJoin(s[1..], sep);
      if s[0] != sep {
        if |rest| == 1 {
        } else {
          assert Join(rest, sep) == rest[0] + [sep] + Join(rest[1..], sep);
          assert Split(s, sep)[1..] == rest[1..];
        }
      }
    }
  }

  /** `[float(p) for p in pieces]`: None as soon as one piece does not parse. */
  function ParseAll(pieces: seq<string>, number: Number): (r: Option<seq<int>>)
    ensures r.Some? ==> |r.value| == |pieces|
    ensures r.Some? ==> forall i :: 0 <= i < |pieces| ==> number(pieces[i]) == Some(r.value[i])
    ensures r.None? ==> exists i :: 0 <= i < |pieces| && number(pieces[i]).None?
  {
    if pieces == [] then Some([])
    else match number(pieces[0])
      case None => None
      case Some(x) =>
        match ParseAll(pieces[1..], number)
        case None => None
        case Some(xs) => Some([x] + xs)
  }

  datatype Fallback = FallbackMs(ms: int) | TooManyParts | NotANumber

  /** helpers.py:92-105: every piece is parsed first (one that does not parse
      raises even when there are too many pieces); then one piece is seconds,
      two are hours and minutes, three are hours, minutes and seconds, and
      more give up. */
  function ParseFallback(text: string, number: Number): (r: Fallback)
    ensures r == NotANumber <==> ParseAll(Split(text, ':'), number).None?
    ensures |Split(text, ':')| > 3 ==> r.NotANumber? || r.TooManyParts?
  {
    var pieces := Split(text, ':');
    match ParseAll(pieces, number)
    case None => NotANumber
    case Some(f) =>
      if |f| == 3 then FallbackMs(f[0] * MS_PER_HOUR + f[1] * MS_PER_MINUTE + f[2] * MS_PER_SECOND)
      else if |f| == 2 then FallbackMs(f[0] * MS_PER_HOUR + f[1] * MS_PER_MINUTE)
      else if |f| == 1 then FallbackMs(f[0] * MS_PER_SECOND)
      else TooManyParts
  }

  /** The fallback reads "h:m:s", "h:m" and "s" as the duration they spell. */
  lemma FallbackReadsClock(h: string, m: string, s: string, number: Number)
    requires ':' !in h && ':' !in m && ':' !in s
    requires number(h).Some? && number(m).Some? && number(s).Some?
    ensures ParseFallback(h + ":" + m + ":" + s, number)
      == FallbackMs(number(h).value * MS_PER_HOUR + number(m).value * MS_PER_MINUTE + number(s).value * MS_PER_SECOND)
    ensures ParseFallback(h + ":" + m, number)
      == FallbackMs(number(h).value * MS_PER_HOUR + number(m).value * MS_PER_MINUTE)
    ensures ParseFallback(s, number) == FallbackMs(number(s).value * MS_PER_SECOND)
  {
    FallbackThreePieces(h, m, s, number);
    FallbackTwoPieces(h, m, number);
    FallbackOnePiece(s, number);
  }

  lemma FallbackOnePiece(s: string, number: Number)
    requires ':' !in s && number(s).Some?
    ensures ParseFallback(s, number) == FallbackMs(number(s).value * MS_PER_SECOND)
  {
    SplitNoSep(s);
    ParseAllCons(s, [], number);
  }

  /** Parsing one more piece in front. */
  lemma ParseAllCons(p: string, rest: seq<string>, number: Number)
    requires number(p).Some? && ParseAll(rest, number).Some?
    ensures ParseAll([p] + rest, number) == Some([number(p).value] + ParseAll(rest, number).value)
  {
    assert ([p] + rest)[1..] == rest;
  }

  lemma FallbackTwoPieces(h: string, m: string, number: Number)
    requires ':' !in h && ':' !in m && number(h).Some? && number(m).Some?
    ensures ParseFallback(h + ":" + m, number)
      == FallbackMs(number(h).value * MS_PER_HOUR + number(m).value * MS_PER_MINUTE)
  {
    SplitOfPieces(h, m);
    SplitNoSep(m);
    assert Split(h + ":" + m, ':') == [h, m];
    ParseAllCons(m, [], number);
    assert [m] + [] == [m] && [h] + [m] == [h, m];
    ParseAllCons(h, [m], number);
  }

  lemma FallbackThreePieces(h: string, m: string, s: string, number: Number)
    requires ':' !in h && ':' !in m && ':' !in s
    requires number(h).Some? && number(m).Some? && number(s).Some?
    ensures ParseFallback(h + ":" + m + ":" + s, number)
      == FallbackMs(number(h).value * MS_PER_HOUR + number(m).value * MS_PER_MINUTE + number(s).value * MS_PER_SECOND)
  {
    assert h + ":" + m + ":" + s == h + ":" + (m + ":" + s);
    SplitOfPieces(h, m + ":" + s);
    SplitOfPieces(m, s);
    SplitNoSep(s);
    assert Split(h + ":" + m + ":" + s, ':') == [h, m, s];
    ParseAllCons(s, [], number);
    assert [s] + [] == [s] && [m] + [s] == [m, s] && [h] + [m, s] == [h, m, s];
    ParseAllCons(m, [s], number);
    ParseAllCons(h, [m, s], number);
  }

  lemma {:induction false} SplitNoSep(s: string)
    requires ':' !in s
    ensures Split(s, ':') == [s]
  {
    if s != [] {
      SplitNoSep(s[1..]);
      assert [s[0]] + s[1..] == s;
    }
  }

  lemma {:induction false} SplitOfPieces(a: string, b: string)
    requires ':' !in a
    ensures Split(a + ":" + b, ':') == [a] + Split(b, ':')
  {
    if a == [] {
      assert a + ":" + b == [':'] + b;
      assert (a + ":" + b)[1..] == b;
    } else {
      assert (a + ":" + b)[1..] == a[1..] + ":" + b;
      SplitOfPieces(a[1..], b);
      assert [a[0]] + a[1..] == a;
    }
  }

  // ----- the two helpers -----

  /** helpers.py:71-128 `timdelta_to_duration`. None and unsupported types
      give the default untouched; a dictionary is only stripped of its zero
      entries; a timedelta, a number or a string is measured in milliseconds
      and decomposed. A string goes to `cv.time_period` first and to the
      colon fallback when that raises one of the four caught exception types;
      any other rejection escapes. */
  function ToDuration(value: DurationValue, default: Dict, timePeriod: TimePeriod, number: Number): (r: Converted)
    ensures value.DNone? || value.DOther? ==> r == Returned(default)
    ensures value.DParts? ==> r == Returned(NonZero(value.parts))
    ensures r.RaisedValueError? ==> value.DText? && timePeriod(value).PeriodCaught?
    ensures r.RaisedInvalid? <==> value.DText? && timePeriod(value).PeriodInvalid?
    ensures r.Returned? && r.d != default ==> Canonical(r.d) || value.DParts?
  {
    match value
    case DNone => Returned(default)
    case DParts(d) => Returned(NonZero(d))
    case DDelta(td) => DurationRoundTrip(DeltaMs(td)); Returned(DurationFromMs(DeltaMs(td)))
    case DNumber(s) => DurationRoundTrip(s * MS_PER_SECOND); Returned(DurationFromMs(s * MS_PER_SECOND))
    case DText(text) =>
      (match timePeriod(value)
       case Period(td) => DurationRoundTrip(DeltaMs(td)); Returned(DurationFromMs(DeltaMs(td)))
       case PeriodInvalid => RaisedInvalid
       case PeriodCaught =>
         (match ParseFallback(text, number)
          case FallbackMs(ms) => DurationRoundTrip(ms); Returned(DurationFromMs(ms))
          case TooManyParts => Returned(default)
          case NotANumber => RaisedValueError))
    case DOther => Returned(default)
  }

  /** helpers.py:153-159 `duration_to_timedelta`: None gives the default, a
      timedelta is returned as it is, a number counts seconds, and anything
      else goes to `cv.time_period`, whose every exception escapes (None). */
  function ToTimedelta(value: DurationValue, default: Timedelta, timePeriod: TimePeriod): (r: Option<Timedelta>)
    ensures value.DNone? ==> r == Some(default)
    ensures value.DDelta? ==> r == Some(value.td)
    ensures value.DNumber? ==> r.Some? && r.value.us == value.seconds * US_PER_SECOND
    ensures value.DText? || value.DParts? || value.DOther? ==>
      (r.Some? <==> timePeriod(value).Period?) && (r.Some? ==> r.value == timePeriod(value).td)
  {
    match value
    case DNone => Some(default)
    case DDelta(td) => Some(td)
    case DNumber(s) => Some(Timedelta(s * US_PER_SECOND))
    case _ => (match timePeriod(value) case Period(td) => Some(td) case _ => None)
  }

  /** The two helpers agree: the duration dictionary made from a number of
      seconds, from a timedelta of whole milliseconds, or from a string that
      `cv.time_period` reads as whole milliseconds, stands for the same length
      of time as the timedelta made from that value. */
  lemma HelpersAgree(value: DurationValue, dd: Dict, dt: Timedelta, timePeriod: TimePeriod, number: Number)
    requires || value.DNumber?
             || (value.DDelta? && value.td.us % 1000 == 0)
             || (value.DText? && timePeriod(value).Period? && timePeriod(value).td.us % 1000 == 0)
    ensures ToDuration(value, dd, timePeriod, number).Returned?
    ensures TotalMs(ToDuration(value, dd, timePeriod, number).d) * 1000
      == ToTimedelta(value, dt, timePeriod).value.us
  {
    if value.DNumber? {
      DurationRoundTrip(value.seconds * MS_PER_SECOND);
    } else {
      var td := if value.DDelta? then value.td else timePeriod(value).td;
      var us := td.us;
      assert us == (us / 1000) * 1000;
      assert DeltaMs(td) == us / 1000;
      DurationRoundTrip(us / 1000);
    }
  }
}
