/** The Python built-ins that main.py applies to chat ids.

    `str(chat_id)` builds both the keys of the chat map and the callback
    payloads; `payload.split(":")[1]` followed by `int(...)` reads an id back
    out of a payload. */
module PyText {

  import opened Wrappers

  predicate IsDigit(c: char)
  {
    '0' <= c <= '9'
  }

  /** The character of a decimal digit. */
  function DigitChar(d: nat): (c: char)
    requires d < 10
    ensures IsDigit(c) && DigitValue(c) == d
  {
    ('0' as int + d) as char
  }

  /** The value of a decimal digit character. */
  function DigitValue(c: char): (d: nat)
    requires IsDigit(c)
    ensures d < 10
  {
    c as int - '0' as int
  }

  /** A non-empty string of decimal digits. */
  predicate AllDigits(s: string)
  {
    |s| > 0 && forall i :: 0 <= i < |s| ==> IsDigit(s[i])
  }

  /** The number a string of decimal digits denotes, most significant first. */
  function DigitsValue(s: string): nat
    requires forall i :: 0 <= i < |s| ==> IsDigit(s[i])
  {
    if s == [] then 0 else DigitsValue(s[..|s| - 1]) * 10 + DigitValue(s[|s| - 1])
  }

  /** `str(n)` for a natural number: its decimal digits, with no leading zero
      except for 0 itself. */
  function NatToString(n: nat): (s: string)
    ensures AllDigits(s)
    ensures s[0] == '0' ==> s == "0"
    decreases n
  {
    if n < 10 then [DigitChar(n)] else NatToString(n / 10) + [DigitChar(n % 10)]
  }

  /** `str(i)`: a minus sign before the digits of a negative number (group
      chats have negative ids). The result never contains a colon. */
  function IntToString(i: int): (s: string)
    ensures |s| > 0 && ':' !in s
    ensures s[0] == '-' <==> i < 0
  {
    if i < 0 then "-" + NatToString(-i) else NatToString(i)
  }

  /** `int(s)`: an optional sign followed by one or more decimal digits;
      `None` is the `ValueError` raised for anything else. Leading zeros are
      accepted, as in Python. */
  function ParseInt(s: string): (r: Option<int>)
    ensures r.Some? ==> AllDigits(s) || (|s| > 1 && (s[0] == '-' || s[0] == '+') && AllDigits(s[1..]))
    ensures AllDigits(s) ==> r == Some(DigitsValue(s))
    ensures |s| > 1 && s[0] == '-' && AllDigits(s[1..]) ==> r == Some(-(DigitsValue(s[1..]) as int))
    ensures |s| > 1 && s[0] == '+' && AllDigits(s[1..]) ==> r == Some(DigitsValue(s[1..]))
  {
    if |s| > 0 && s[0] == '-' then
      if AllDigits(s[1..]) then Some(-(DigitsValue(s[1..]) as int)) else None
    else if |s| > 0 && s[0] == '+' then
      if AllDigits(s[1..]) then Some(DigitsValue(s[1..])) else None
    else if AllDigits(s) then
      Some(DigitsValue(s))
    else
      None
  }

  /** Reading back the digits of a natural number gives the number. */
  lemma {:induction false} NatToStringRoundTrip(n: nat)
    ensures DigitsValue(NatToString(n)) == n
    decreases n
  {
    if n >= 10 {
      NatToStringRoundTrip(n / 10);
      var s := NatToString(n);
      assert s[..|s| - 1] == NatToString(n / 10);
    }
  }

  /** `int(str(i)) == i` for every integer, negative ones included. */
  lemma IntToStringRoundTrip(i: int)
    ensures ParseInt(IntToString(i)) == Some(i)
  {
    if i < 0 {
      NatToStringRoundTrip(-i);
      assert IntToString(i)[1..] == NatToString(-i);
    } else {
      NatToStringRoundTrip(i);
    }
  }

  /** Distinct integers have distinct decimal strings, so `str(chat_id)` keys
      of different chats never collide. */
  lemma IntToStringInjective(i: int, j: int)
    requires IntToString(i) == IntToString(j)
    ensures i == j
  {
    IntToStringRoundTrip(i);
    IntToStringRoundTrip(j);
  }

  /** `s.split(":")[0]`: the longest colon-free prefix of `s`. */
  function FirstField(s: string): (f: string)
    ensures f <= s && ':' !in f
    ensures |f| < |s| ==> s[|f|] == ':'
  {
    if s == [] || s[0] == ':' then [] else [s[0]] + FirstField(s[1..])
  }

  /** `s.split(":")[1]`: the field after the first colon, up to the next colon
      or the end; `None` is the `IndexError` raised when `s` has no colon. */
  function SecondField(s: string): (r: Option<string>)
    ensures r.None? <==> ':' !in s
    ensures r.Some? ==> ':' !in r.value
    ensures r.Some? ==> |FirstField(s)| < |s| && r.value == FirstField(s[|FirstField(s)| + 1..])
  {
    if s == [] then None
    else if s[0] == ':' then Some(FirstField(s[1..]))
    else SecondField(s[1..])
  }

  /** A colon-free string is its own first field. */
  lemma FirstFieldNoColon(s: string)
    requires ':' !in s
    ensures FirstField(s) == s
  {
  }

  /** The second field of `head:body`, for colon-free `head` and `body`, is
      `body`. */
  lemma {:induction false} SecondFieldOfJoin(head: string, body: string)
    requires ':' !in head && ':' !in body
    ensures SecondField(head + ":" + body) == Some(body)
  {
    if head == [] {
      assert head + ":" + body == [':'] + body;
      FirstFieldNoColon(body);
    } else {
      assert (head + ":" + body)[1..] == head[1..] + ":" + body;
      SecondFieldOfJoin(head[1..], body);
    }
  }
}
