/** Text helpers used by the notification client: joining a batch of
    messages with newlines (the standard library's `join("\n")`), the
    inverse split, and the decimal rendering of a count (`format!("{}")`). */
module Text {

  /** True when no message of the batch contains a line break. */
  predicate NoLineBreaks(msgs: seq<string>) {
    forall i :: 0 <= i < |msgs| ==> '\n' !in msgs[i]
  }

  /** The messages in order, separated by one "\n" each; "" for no message. */
  function Join(msgs: seq<string>): string
    decreases |msgs|
  {
    if |msgs| == 0 then ""
    else if |msgs| == 1 then msgs[0]
    else msgs[0] + "\n" + Join(msgs[1..])
  }

  /** Cuts a text at every "\n"; the inverse of Join for line-free messages. */
  function Split(s: string): (parts: seq<string>)
    ensures |parts| >= 1
    decreases |s|
  {
    if s == [] then [""]
    else
      var rest := Split(s[1..]);
      if s[0] == '\n' then [""] + rest
      else [[s[0]] + rest[0]] + rest[1..]
  }

  lemma {:induction false} SplitLine(m: string)
    requires '\n' !in m
    ensures Split(m) == [m]
    decreases |m|
  {
    if m != [] {
      SplitLine(m[1..]);
      assert [m[0]] + m[1..] == m;
    }
  }

  lemma {:induction false} SplitFirstLine(m: string, t: string)
    requires '\n' !in m
    ensures Split(m + "\n" + t) == [m] + Split(t)
    decreases |m|
  {
    var s := m + "\n" + t;
    if m == [] {
      assert s[0] == '\n' && s[1..] == t;
    } else {
      assert s[0] == m[0] && s[1..] == m[1..] + "\n" + t;
      SplitFirstLine(m[1..], t);
      assert [m[0]] + m[1..] == m;
    }
  }

  /** The payload of a non-empty batch of line-free messages splits back into
      exactly that batch: one segment per message, in insertion order. */
  lemma {:induction false} SplitJoin(msgs: seq<string>)
    requires msgs != [] && NoLineBreaks(msgs)
    ensures Split(Join(msgs)) == msgs
    decreases |msgs|
  {
    if |msgs| == 1 {
      SplitLine(msgs[0]);
    } else {
      assert NoLineBreaks(msgs[1..]) by {
        forall i | 0 <= i < |msgs[1..]| ensures '\n' !in msgs[1..][i] {
          assert msgs[1..][i] == msgs[i + 1];
        }
      }
      SplitJoin(msgs[1..]);
      SplitFirstLine(msgs[0], Join(msgs[1..]));
      assert [msgs[0]] + msgs[1..] == msgs;
    }
  }

  /** Appending one message to a non-empty batch appends one line to its payload. */
  lemma {:induction false} JoinSnoc(msgs: seq<string>, m: string)
    requires msgs != []
    ensures Join(msgs + [m]) == Join(msgs) + "\n" + m
    decreases |msgs|
  {
    if |msgs| > 1 {
      assert (msgs + [m])[1..] == msgs[1..] + [m];
      JoinSnoc(msgs[1..], m);
    }
  }

  predicate IsDigit(c: char) {
    '0' <= c <= '9'
  }

  predicate AllDigits(s: string) {
    forall i :: 0 <= i < |s| ==> IsDigit(s[i])
  }

  /** Decimal rendering of a count, as `{}` formats an unsigned integer. */
  function NatToString(n: nat): (s: string)
    ensures s != [] && AllDigits(s)
    ensures n > 0 ==> s[0] != '0'
    decreases n
  {
    if n < 10 then [('0' as int + n) as char]
    else NatToString(n / 10) + [('0' as int + n % 10) as char]
  }

  /** Value of a string of decimal digits. */
  function ParseDecimal(s: string): nat
    requires AllDigits(s)
    decreases |s|
  {
    if s == [] then 0
    else ParseDecimal(s[..|s| - 1]) * 10 + (s[|s| - 1] as int - '0' as int)
  }

  /** Reading the rendered count back gives the count. */
  lemma {:induction false} DecimalRoundTrip(n: nat)
    ensures ParseDecimal(NatToString(n)) == n
    decreases n
  {
    var s := NatToString(n);
    if n >= 10 {
      var p := NatToString(n / 10);
      assert s[..|s| - 1] == p;
      DecimalRoundTrip(n / 10);
    }
  }
}
