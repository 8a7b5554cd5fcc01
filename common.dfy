/** Optional values and request-body keys, shared by every part of the model. */
module Common {

  /** A stored value that may be null. */
  datatype Option<T> = None | Some(value: T)

  /** One key of a JSON request body: left out, sent as null, or sent with a value. */
  datatype Input<T> = Missing | Null | Given(value: T)

  /** JavaScript truthiness of a string-valued body key: present, not null, not "". */
  predicate Truthy(i: Input<string>)
  {
    i.Given? && i.value != ""
  }

  /** The JavaScript expression `x || d` on a string-valued body key. */
  function OrDefault(i: Input<string>, d: string): string
  {
    if Truthy(i) then i.value else d
  }

  /** How a nullable stored string prints inside a template literal. */
  function Show(o: Option<string>): string
  {
    match o
    case Some(s) => s
    case None => "null"
  }

  /** The day length, in milliseconds. */
  const DAY_MS: int := 86400000

  /** The UTC calendar day of an instant: the day number behind its ISO `YYYY-MM-DD` prefix. */
  function Day(ms: int): int
  {
    ms / DAY_MS
  }

  lemma {:induction false} DayBefore(ms: int)
    ensures Day(ms - DAY_MS) == Day(ms) - 1
    ensures Day(ms) * DAY_MS <= ms < (Day(ms) + 1) * DAY_MS
  {
    var q, r := ms / DAY_MS, ms % DAY_MS;
    assert ms == q * DAY_MS + r && 0 <= r < DAY_MS;
    assert ms - DAY_MS == (q - 1) * DAY_MS + r;
  }
}
