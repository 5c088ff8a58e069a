/**
 The data shared by calendar sync and event expansion: a configured calendar
 feed, a parsed calendar component, an event tagged with the feed it came
 from, and the JavaScript `String.prototype.trim` used to skip blank URLs.
 */
module Calendar {

  /** One configured feed (`settings.icals[i]`). */
  datatype CalendarConfig = CalendarConfig(url: string, name: string, color: string)

  /**
   A component produced by the calendar text parser. `kind` is its `type`
   field ("VEVENT", "VTODO", "VTIMEZONE", ...); the remaining fields stand for
   the parser's payload, which this model never inspects.
   */
  datatype Component = Component(kind: string, uid: string, summary: string)

  /** `{...icalEvent, calendar}`: a parsed event together with the feed it came from. */
  datatype TaggedEvent = TaggedEvent(event: Component, calendar: CalendarConfig)

  const VEventKind: string := "VEVENT"

  /** `isVEvent`: a component counts as an event exactly when its type is "VEVENT". */
  predicate IsVEvent(c: Component) {
    c.kind == VEventKind
  }

  /**
   The code points `String.prototype.trim` removes: the ECMAScript WhiteSpace
   set (tab, vertical tab, form feed, space, no-break space, byte order mark
   and the Unicode space separators) and the LineTerminator set.
   */
  predicate IsJsWhitespace(c: char) {
    var n := c as int;
    || n == 0x09 || n == 0x0A || n == 0x0B || n == 0x0C || n == 0x0D
    || n == 0x20 || n == 0xA0 || n == 0x1680
    || (0x2000 <= n <= 0x200A)
    || n == 0x2028 || n == 0x2029 || n == 0x202F || n == 0x205F
    || n == 0x3000 || n == 0xFEFF
  }

  /** Drops leading whitespace; what is dropped is all whitespace and what is kept does not start with any. */
  function TrimStart(s: string): (r: string)
    ensures |r| <= |s| && r == s[|s| - |r|..]
    ensures |r| == 0 || !IsJsWhitespace(r[0])
    ensures forall i :: 0 <= i < |s| - |r| ==> IsJsWhitespace(s[i])
    decreases |s|
  {
    if |s| > 0 && IsJsWhitespace(s[0]) then
      var r := TrimStart(s[1..]);
      assert forall i :: 1 <= i < |s| ==> s[i] == s[1..][i - 1];
      r
    else s
  }

  /** Drops trailing whitespace; what is dropped is all whitespace and what is kept does not end with any. */
  function TrimEnd(s: string): (r: string)
    ensures |r| <= |s| && r == s[..|r|]
    ensures |r| == 0 || !IsJsWhitespace(r[|r| - 1])
    ensures forall i :: |r| <= i < |s| ==> IsJsWhitespace(s[i])
    decreases |s|
  {
    if |s| > 0 && IsJsWhitespace(s[|s| - 1]) then
      var r := TrimEnd(s[..|s| - 1]);
      assert forall i :: 0 <= i < |s| - 1 ==> s[i] == s[..|s| - 1][i];
      r
    else s
  }

  /**
   `s.trim()`: the result is a slice of `s` that neither starts nor ends with
   whitespace, and it is empty exactly when `s` is all whitespace.
   */
  function Trim(s: string): (r: string)
    ensures |r| <= |s|
    ensures exists i :: 0 <= i <= |s| - |r| && r == s[i..][..|r|]
    ensures |r| == 0 || (!IsJsWhitespace(r[0]) && !IsJsWhitespace(r[|r| - 1]))
    ensures |r| == 0 <==> forall i :: 0 <= i < |s| ==> IsJsWhitespace(s[i])
  {
    var t := TrimStart(s);
    var r := TrimEnd(t);
    var i := |s| - |t|;
    assert 0 <= i <= |s| - |r| && r == s[i..][..|r|];
    r
  }

  /** A feed is skipped exactly when `url.trim().length > 0` fails. */
  predicate IsBlank(url: string) {
    |Trim(url)| == 0
  }
}
