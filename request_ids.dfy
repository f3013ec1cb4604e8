/**
 * Request ids. Both transports keep an integer counter, add one to it per request and send
 * `str(counter)` as the JSON-RPC id. `Render` is that decimal rendering and `Parse` its inverse;
 * the two round trips make ids from one transport instance distinct.
 */
module RequestIds {
  import opened Wrappers

  predicate IsDigit(c: char) {
    '0' <= c <= '9'
  }

  predicate AllDigits(s: string) {
    forall i :: 0 <= i < |s| ==> IsDigit(s[i])
  }

  function DigitChar(d: nat): (c: char)
    requires d < 10
    ensures IsDigit(c) && c as int - '0' as int == d
  {
    ('0' as int + d) as char
  }

  function DigitValue(c: char): (d: nat)
    requires IsDigit(c)
    ensures d < 10 && DigitChar(d) == c
  {
    c as int - '0' as int
  }

  /** Python's `str(n)` for a non-negative int: decimal digits, most significant first. */
  function Render(n: nat): (s: string)
    ensures |s| >= 1 && AllDigits(s)
    ensures s[0] == '0' <==> n == 0
    ensures n < 10 <==> |s| == 1
    decreases n
  {
    if n < 10 then [DigitChar(n)] else Render(n / 10) + [DigitChar(n % 10)]
  }

  /** The number a string of digits denotes, read from the least significant digit. */
  function Value(s: string): nat
    requires AllDigits(s)
  {
    if s == [] then 0 else Value(s[..|s| - 1]) * 10 + DigitValue(s[|s| - 1])
  }

  /** Reads a canonical decimal numeral: non-empty, digits only, no leading zero. */
  function Parse(s: string): Option<nat> {
    if |s| == 0 || !AllDigits(s) || (|s| > 1 && s[0] == '0') then None else Some(Value(s))
  }

  lemma {:induction false} ParseRender(n: nat)
    ensures Parse(Render(n)) == Some(n)
    decreases n
  {
    var s := Render(n);
    if n < 10 {
      assert s[..|s| - 1] == [];
      assert Value(s) == DigitValue(DigitChar(n)) == n;
    } else {
      var p := Render(n / 10);
      ParseRender(n / 10);
      assert s[..|s| - 1] == p;
      assert s[|s| - 1] == DigitChar(n % 10);
      assert Value(s) == Value(p) * 10 + n % 10 == n;
    }
  }

  lemma {:induction false} RenderParse(s: string)
    ensures Parse(s).Some? ==> Render(Parse(s).value) == s
    decreases |s|
  {
    if Parse(s).Some? && |s| == 1 {
      assert s[..0] == [];
      assert Parse(s).value == Value(s) == DigitValue(s[0]);
      assert Render(Parse(s).value) == [DigitChar(DigitValue(s[0]))];
    } else if Parse(s).Some? && |s| > 1 {
      var p := s[..|s| - 1];
      assert p[0] == s[0];
      assert Parse(p) == Some(Value(p));
      RenderParse(p);
      var n := Parse(s).value;
      var d := DigitValue(s[|s| - 1]);
      assert n == Value(p) * 10 + d;
      assert Value(p) != 0;
      assert n / 10 == Value(p) && n % 10 == d;
      assert n >= 10;
      assert Render(n) == Render(Value(p)) + [DigitChar(d)];
      assert s == p + [s[|s| - 1]];
    }
  }

  /** `Parse` accepts exactly the strings `Render` produces. */
  lemma ParseIsInverse(s: string, n: nat)
    ensures Parse(s) == Some(n) <==> s == Render(n)
  {
    ParseRender(n);
    RenderParse(s);
  }

  /** Distinct counter values give distinct ids. */
  lemma RenderInjective(a: nat, b: nat)
    ensures Render(a) == Render(b) ==> a == b
  {
    ParseRender(a);
    ParseRender(b);
  }

  /** `id` is one of the ids "1" .. str(counter) a transport has handed out. */
  predicate Issued(id: string, counter: nat) {
    match Parse(id)
    case Some(n) => 1 <= n <= counter
    case None => false
  }

  /** The id allocated after `counter` was not handed out before, and is afterwards. */
  lemma NextIdIsFresh(counter: nat)
    ensures !Issued(Render(counter + 1), counter)
    ensures Issued(Render(counter + 1), counter + 1)
    ensures forall id :: Issued(id, counter) ==> Issued(id, counter + 1) && id != Render(counter + 1)
  {
    ParseRender(counter + 1);
  }
}
