/** Names under which listening entries are kept: a proxy's own name, or one derived from the
    port for an entry that HTTP proxies share. */
module EntryNames {
  import opened Wrappers
  import opened Subsequences

  const HTTP_ENTRY_PREFIX := "http:"

  const MIN_INT := -0x8000_0000_0000_0000
  const MAX_INT := 0x7fff_ffff_ffff_ffff

  predicate IsDigit(c: char) { '0' <= c <= '9' }

  function Digit(n: nat): char
    requires n < 10
  {
    '0' + n as char
  }

  function Digits(n: nat): (s: string)
    ensures s != [] && forall k :: 0 <= k < |s| ==> IsDigit(s[k])
    decreases n
  {
    if n < 10 then [Digit(n)] else Digits(n / 10) + [Digit(n % 10)]
  }

  function ValueOf(s: string): nat
    requires forall k :: 0 <= k < |s| ==> IsDigit(s[k])
    decreases |s|
  {
    if s == [] then 0
    else assert IsDigit(s[|s| - 1]); ValueOf(Init(s)) * 10 + (Last(s) as int - '0' as int)
  }

  /** strconv.Itoa. */
  function Itoa(n: int): string { if n < 0 then "-" + Digits(-n) else Digits(n) }

  /** strconv.Atoi: an optional sign, at least one digit, and a value that fits 64 bits. */
  function Atoi(s: string): Option<int> {
    var signed := s != [] && (s[0] == '-' || s[0] == '+');
    var digits := if signed then s[1..] else s;
    if digits == [] || exists k :: 0 <= k < |digits| && !IsDigit(digits[k]) then None
    else
      var value: int := if signed && s[0] == '-' then 0 - ValueOf(digits) else ValueOf(digits);
      if MIN_INT <= value <= MAX_INT then Some(value) else None
  }

  function EntryName(port: int): string { HTTP_ENTRY_PREFIX + Itoa(port) }

  function EntryPort(name: string): Option<int> {
    if HTTP_ENTRY_PREFIX <= name then Atoi(name[|HTTP_ENTRY_PREFIX|..]) else None
  }

  lemma {:induction false} ValueOfDigits(n: nat)
    ensures ValueOf(Digits(n)) == n
    decreases n
  {
    if n < 10 {
      assert Init([Digit(n)]) == [];
    } else {
      ValueOfDigits(n / 10);
      Snoc(Digits(n / 10), Digit(n % 10));
    }
  }

  lemma AtoiItoa(n: int)
    requires MIN_INT <= n <= MAX_INT
    ensures Atoi(Itoa(n)) == Some(n)
  {
    var s := Digits(if n < 0 then -n else n);
    ValueOfDigits(if n < 0 then -n else n);
    assert IsDigit(s[0]);
    assert ("-" + s)[1..] == s;
  }

  /** The port of a shared entry can be read back from its name, so no two ports share a name. */
  lemma EntryPortOfName(port: int)
    requires MIN_INT <= port <= MAX_INT
    ensures EntryPort(EntryName(port)) == Some(port)
  {
    AtoiItoa(port);
    assert EntryName(port)[|HTTP_ENTRY_PREFIX|..] == Itoa(port);
  }

  lemma PrefixHasColon(name: string)
    requires HTTP_ENTRY_PREFIX <= name
    ensures ':' in name
  {
    assert name[4] == HTTP_ENTRY_PREFIX[4];
  }

  /** A proxy whose name has no colon never collides with a shared entry. */
  lemma ColonFreeIsNoEntry(name: string, port: int)
    requires ':' !in name
    ensures name != EntryName(port) && EntryPort(name) == None
  {
    if HTTP_ENTRY_PREFIX <= name {
      PrefixHasColon(name);
      assert false;
    }
    assert HTTP_ENTRY_PREFIX <= EntryName(port);
  }

  /** Without that rule a proxy could take the name of an entry, and even spell it differently. */
  lemma ColonCollides()
    ensures EntryName(80) == "http:80" && EntryPort("http:080") == Some(80)
  {
    assert Digits(80) == Digits(8) + ['0'] && Digits(8) == ['8'];
    assert Init("080") == "08" && Init("08") == "0" && Init("0") == "";
    assert ValueOf("0") == 0 && ValueOf("08") == 8 && ValueOf("080") == 80;
    assert "http:080"[5..] == "080";
    assert Atoi("080") == Some(80);
  }
}
