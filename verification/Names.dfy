/** The names of net/tcp_server: how new_connection formats them, and why two
    connections of one server never share one. */
module Names {

  const INT_MAX: nat := 0x7fff_ffff

  /** The buffer that new_connection formats into, and the most that fits before its NUL. */
  const NAME_BUF: nat := 64

  function Digit(d: nat): char
    requires d < 10
  {
    '0' + d as char
  }

  /** %d and %u of a non-negative value */
  function Decimal(n: nat): string {
    if n < 10 then [Digit(n)] else Decimal(n / 10) + [Digit(n % 10)]
  }

  /** snprintf: at most size - 1 characters of the formatted text. */
  function Snprintf(size: nat, text: string): string
    requires size > 0
  {
    if |text| < size then text else text[..size - 1]
  }

  /** inetaddress::to_ip_port, over the four bytes of an IPv4 address. */
  function IpPort(a: bv8, b: bv8, c: bv8, d: bv8, port: bv16): string {
    Decimal(a as nat) + "." + Decimal(b as nat) + "." + Decimal(c as nat) + "." + Decimal(d as nat)
    + ":" + Decimal(port as nat)
  }

  function Suffix(ipPort: string, id: nat): string {
    Snprintf(NAME_BUF, "-" + ipPort + "#" + Decimal(id))
  }

  /** conn_name in new_connection */
  function ConnectionName(server: string, ipPort: string, id: nat): string {
    server + Suffix(ipPort, id)
  }

  lemma {:induction false} DecimalInjective(m: nat, n: nat)
    requires Decimal(m) == Decimal(n)
    ensures m == n
    decreases m
  {
    var s, t := Decimal(m), Decimal(n);
    assert s[|s| - 1] == Digit(m % 10) && t[|t| - 1] == Digit(n % 10);
    if m >= 10 && n >= 10 {
      assert s[..|s| - 1] == Decimal(m / 10) && t[..|t| - 1] == Decimal(n / 10);
      DecimalInjective(m / 10, n / 10);
    } else {
      DecimalNonEmpty(m / 10);
      DecimalNonEmpty(n / 10);
    }
  }

  /** The number that a sequence of digits writes. */
  function Value(s: string): int {
    if s == "" then 0 else 10 * Value(s[..|s| - 1]) + (s[|s| - 1] as int - '0' as int)
  }

  lemma {:induction false} DecimalReads(n: nat)
    ensures Value(Decimal(n)) == n
    decreases n
  {
    var s := Decimal(n);
    if n < 10 {
      assert s[..|s| - 1] == "";
    } else {
      DecimalReads(n / 10);
      assert s[..|s| - 1] == Decimal(n / 10);
    }
  }

  lemma DecimalNonEmpty(n: nat)
    ensures |Decimal(n)| > 0
  {
  }

  function Pow10(k: nat): (r: nat)
    ensures r >= 1
  {
    if k == 0 then 1 else 10 * Pow10(k - 1)
  }

  /** A number below 10^k has at most k digits; from 10^(k-1) on, at least k. */
  lemma {:induction false} DecimalLength(n: nat, k: nat)
    requires k > 0
    ensures n < Pow10(k) ==> |Decimal(n)| <= k
    ensures n >= Pow10(k - 1) ==> |Decimal(n)| >= k
    decreases k
  {
    if k > 1 && n >= 10 {
      DecimalLength(n / 10, k - 1);
    } else {
      DecimalNonEmpty(n);
    }
  }

  lemma Powers()
    ensures Pow10(3) == 1000 && Pow10(5) == 100000 && Pow10(8) == 100000000 && Pow10(10) == 10000000000
  {
    assert Pow10(4) == 10000;
    assert Pow10(6) == 1000000;
    assert Pow10(8) == 100000000;
  }

  /** An address and port never take more than 21 characters. */
  lemma IpPortLength(a: bv8, b: bv8, c: bv8, d: bv8, port: bv16)
    ensures |IpPort(a, b, c, d, port)| <= 21
  {
    Powers();
    DecimalLength(a as nat, 3);
    DecimalLength(b as nat, 3);
    DecimalLength(c as nat, 3);
    DecimalLength(d as nat, 3);
    DecimalLength(port as nat, 5);
  }

  ghost predicate NamesDistinct(server: string, ipPort: string) {
    forall m: nat, n: nat | 1 <= m <= INT_MAX && 1 <= n <= INT_MAX && m != n ::
      ConnectionName(server, ipPort, m) != ConnectionName(server, ipPort, n)
  }

  lemma NameInjective(server: string, ipPort: string, m: nat, n: nat)
    requires |ipPort| <= 51 && m <= INT_MAX && n <= INT_MAX
    requires ConnectionName(server, ipPort, m) == ConnectionName(server, ipPort, n)
    ensures m == n
  {
    Powers();
    DecimalLength(m, 10);
    DecimalLength(n, 10);
    var head := server + ("-" + ipPort + "#");
    assert ConnectionName(server, ipPort, m) == head + Decimal(m);
    assert ConnectionName(server, ipPort, n) == head + Decimal(n);
    assert (head + Decimal(m))[|head|..] == Decimal(m);
    assert (head + Decimal(n))[|head|..] == Decimal(n);
    DecimalInjective(m, n);
  }

  /** Below that length nothing is cut off: the name is the server's, the address and the id. */
  lemma NameGives(server: string, ipPort: string, id: nat) returns (digits: string)
    requires |ipPort| <= 51 && id <= INT_MAX
    ensures ConnectionName(server, ipPort, id) == server + "-" + ipPort + "#" + digits && Value(digits) == id
  {
    digits := Decimal(id);
    Powers();
    DecimalLength(id, 10);
    DecimalReads(id);
  }

  /** Nine leading digits in common: with 52 characters of address the tenth is cut off. */
  lemma LongAddressCollides(server: string, ipPort: string)
    requires |ipPort| >= 52
    ensures ConnectionName(server, ipPort, 1000000000) == ConnectionName(server, ipPort, 1000000001)
  {
    Powers();
    DecimalLength(100000000, 9);
    var head := "-" + ipPort + "#" + Decimal(100000000);
    assert "-" + ipPort + "#" + Decimal(1000000000) == head + "0";
    assert "-" + ipPort + "#" + Decimal(1000000001) == head + "1";
    assert (head + "0")[..63] == head[..63] == (head + "1")[..63];
  }

  /** Over all ids an int can hold, the names of one server are distinct exactly when its
      address has at most 51 characters, so that the 64-byte buffer never truncates. */
  lemma NamesDistinctIff(server: string, ipPort: string)
    ensures NamesDistinct(server, ipPort) <==> |ipPort| <= 51
  {
    if |ipPort| <= 51 {
      forall m: nat, n: nat | 1 <= m <= INT_MAX && 1 <= n <= INT_MAX && m != n
        ensures ConnectionName(server, ipPort, m) != ConnectionName(server, ipPort, n)
      {
        if ConnectionName(server, ipPort, m) == ConnectionName(server, ipPort, n) {
          NameInjective(server, ipPort, m, n);
        }
      }
    } else {
      LongAddressCollides(server, ipPort);
    }
  }

  /** Every server address is short enough. */
  lemma ServerNamesDistinct(server: string, a: bv8, b: bv8, c: bv8, d: bv8, port: bv16)
    ensures NamesDistinct(server, IpPort(a, b, c, d, port))
  {
    IpPortLength(a, b, c, d, port);
    NamesDistinctIff(server, IpPort(a, b, c, d, port));
  }
}
