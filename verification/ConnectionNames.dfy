/** Names TcpServer gives its connections: "-<ip:port>#<number>" printed into 64 bytes. */
module ConnectionNames {

  const BUFFER_SIZE := 64
  const INT_LIMIT := 0x8000_0000

  /** The decimal digits "%d" prints for a non-negative number. */
  function Digits(n: nat): (s: string)
    ensures |s| >= 1
  {
    var last := [('0' as int + n % 10) as char];
    if n < 10 then last else Digits(n / 10) + last
  }

  /** What snprintf(buf, 64, ...) leaves in the buffer: at most 63 characters and the NUL. */
  function Truncated(s: string): string {
    if |s| < BUFFER_SIZE then s else s[..BUFFER_SIZE - 1]
  }

  function Suffix(ipPort: string, number: nat): string {
    "-" + ipPort + "#" + Digits(number)
  }

  function ConnName(server: string, ipPort: string, number: nat): string {
    server + Truncated(Suffix(ipPort, number))
  }

  // -------------------------------------------------------------------------------------------

  function Value(s: string): int {
    if s == "" then 0 else Value(s[..|s| - 1]) * 10 + (s[|s| - 1] as int - '0' as int)
  }

  function Pow10(k: nat): nat {
    if k == 0 then 1 else 10 * Pow10(k - 1)
  }

  /** Reading the digits back gives the number, so printing is injective. */
  lemma {:induction false} DigitsRoundTrip(n: nat)
    ensures Value(Digits(n)) == n
  {
    var s := Digits(n);
    if n >= 10 {
      assert s[..|s| - 1] == Digits(n / 10);
      DigitsRoundTrip(n / 10);
    } else {
      assert s[..|s| - 1] == "";
    }
  }

  /** A number prints in k digits or fewer exactly when it is below 10^k. */
  lemma {:induction false} DigitsLength(n: nat, k: nat)
    requires k >= 1
    ensures |Digits(n)| <= k <==> n < Pow10(k)
    decreases k
  {
    if k == 1 {
      assert Pow10(1) == 10;
    } else if n < 10 {
      PowAtLeastTen(k);
    } else {
      DigitsLength(n / 10, k - 1);
    }
  }

  lemma {:induction false} PowAtLeastTen(k: nat)
    requires k >= 1
    ensures Pow10(k) >= 10
  {
    if k > 1 {
      PowAtLeastTen(k - 1);
    }
  }

  /** What a name is: with an address of 51 characters or fewer nothing is cut off, and no name is longer than 63 beside the server's. */
  lemma NameIs(server: string, ipPort: string, number: nat)
    ensures |ipPort| <= 51 && number < INT_LIMIT ==> ConnName(server, ipPort, number) == server + ("-" + ipPort + "#" + Digits(number))
    ensures ConnName(server, ipPort, number) <= server + ("-" + ipPort + "#" + Digits(number))
    ensures |ConnName(server, ipPort, number)| == |server| + if |ipPort| + 2 + |Digits(number)| < 64 then |ipPort| + 2 + |Digits(number)| else 63
  {
    DigitsLength(number, 10);
  }

  lemma FittingNamesDiffer(server: string, ipPort: string, a: nat, b: nat)
    requires |ipPort| <= 51 && a < INT_LIMIT && b < INT_LIMIT && a != b
    ensures ConnName(server, ipPort, a) != ConnName(server, ipPort, b)
  {
    DigitsLength(a, 10);
    DigitsLength(b, 10);
    DigitsRoundTrip(a);
    DigitsRoundTrip(b);
    var prefix := "-" + ipPort + "#";
    assert Suffix(ipPort, a)[|prefix|..] == Digits(a);
    assert Suffix(ipPort, b)[|prefix|..] == Digits(b);
    var x, y := ConnName(server, ipPort, a), ConnName(server, ipPort, b);
    assert x[|server|..] == Suffix(ipPort, a);
    assert y[|server|..] == Suffix(ipPort, b);
  }

  /** Numbers that differ in their last digit only share a name once that digit is cut off. */
  lemma LastDigitCut(server: string, ipPort: string, q: nat)
    requires q >= 1 && |ipPort| + 2 + |Digits(q)| >= BUFFER_SIZE - 1
    ensures ConnName(server, ipPort, 10 * q) == ConnName(server, ipPort, 10 * q + 1)
  {
    var head := "-" + ipPort + "#" + Digits(q);
    assert (10 * q) / 10 == q && (10 * q + 1) / 10 == q;
    assert Suffix(ipPort, 10 * q) == head + "0";
    assert Suffix(ipPort, 10 * q + 1) == head + "1";
    assert Truncated(head + "0") == head[..63] == Truncated(head + "1");
  }

  /** With a longer address, two ten-digit numbers lose their last digit and share a name. */
  lemma LongAddressCollides(server: string, ipPort: string)
    requires |ipPort| > 51
    ensures exists a: nat, b: nat :: 1 <= a < b < INT_LIMIT && ConnName(server, ipPort, a) == ConnName(server, ipPort, b)
  {
    var q: nat :| q == 100_000_000;
    DigitsLength(q, 8);
    LastDigitCut(server, ipPort, q);
  }

  /**
   The connections one server can number get pairwise distinct names exactly when its
   address prints in 51 characters or fewer.
   */
  lemma NamesDistinctExactly(server: string, ipPort: string)
    ensures (forall a: nat, b: nat :: 1 <= a < b < INT_LIMIT ==> ConnName(server, ipPort, a) != ConnName(server, ipPort, b))
            <==> |ipPort| <= 51
  {
    if |ipPort| <= 51 {
      forall a: nat, b: nat | 1 <= a < b < INT_LIMIT
        ensures ConnName(server, ipPort, a) != ConnName(server, ipPort, b)
      {
        FittingNamesDiffer(server, ipPort, a, b);
      }
    } else {
      LongAddressCollides(server, ipPort);
    }
  }
}
