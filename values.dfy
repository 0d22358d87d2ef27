/** Values shared by every part of the momentary integration model: the loosely
    typed dictionaries that Python passes around, Python's timedelta, and a few
    string helpers. */
module Values {

  datatype Option<T> = None | Some(value: T)

  /** The integration's domain, COMPONENT_DOMAIN. The model also uses it for
      the DOMAIN that helpers.py and db.py import, which const.py does not
      define. */
  const COMPONENT_DOMAIN: string := "momentary"

  /** Home Assistant's switch platform, `Platform.SWITCH` formatted as text. */
  const SWITCH_PLATFORM: string := "switch"

  /** Keys of the integration's dictionaries. */
  const ATTR_DEVICE_ID: string := "device_id"
  const ATTR_ENTITY_ID: string := "entity_id"
  const ATTR_NAME: string := "name"
  const CONF_PLATFORM: string := "platform"

  const US_PER_SECOND: int := 1_000_000
  const US_PER_DAY: int := 86_400_000_000

  /** Python's datetime.timedelta, held as its total number of microseconds.
      Python normalises it to days (any sign), 0 <= seconds < 86400 and
      0 <= microseconds < 10^6; the three accessors below give those parts. */
  datatype Timedelta = Timedelta(us: int) {

    function Days(): int { us / US_PER_DAY }

    /** The `seconds` attribute: the seconds WITHIN the last day, not the total. */
    function Seconds(): (s: int)
      ensures 0 <= s < 86400
    {
      (us % US_PER_DAY) / US_PER_SECOND
    }

    function Microseconds(): (m: int)
      ensures 0 <= m < US_PER_SECOND
    {
      us % US_PER_SECOND
    }
  }

  /** Python's normalisation loses nothing: the three parts rebuild the duration. */
  lemma TimedeltaParts(td: Timedelta)
    ensures td.Days() * US_PER_DAY + td.Seconds() * US_PER_SECOND + td.Microseconds() == td.us
  {
    var d := td.us / 86_400_000_000;
    var r := td.us % 86_400_000_000;
    var q := r / 1_000_000;
    var rem := r % 1_000_000;
    assert td.us == d * 86_400_000_000 + r;
    assert r == q * 1_000_000 + rem;
    assert td.us == (d * 86400 + q) * 1_000_000 + rem;
    SecondRemainder(td.us, d * 86400 + q, rem);
  }

  /** The remainder modulo one second is determined by any decomposition. */
  lemma SecondRemainder(a: int, k: int, rem: int)
    requires a == k * 1_000_000 + rem && 0 <= rem < 1_000_000
    ensures a % 1_000_000 == rem
  {
  }

  /** A value found in one of the integration's YAML/JSON dictionaries. */
  datatype Value =
    | VNone
    | VBool(b: bool)
    | VInt(i: int)
    | VStr(s: string)
    | VDelta(td: Timedelta)

  /** A Python dict with string keys, as read from YAML or JSON. */
  type Dict = map<string, Value>

  /** `s.startswith(c)` for a one-character prefix. */
  predicate StartsWith(s: string, c: char)
  {
    |s| > 0 && s[0] == c
  }

  /** `dict.get(key)` when the value must be a string; anything else is absent. */
  function GetString(d: Dict, key: string): Option<string>
  {
    if key in d && d[key].VStr? then Some(d[key].s) else None
  }
}
