/** Strings as the bot uses them: trimming, prefixes and suffixes, decimal numerals. */
module Text {

  datatype Option<+T> = None | Some(value: T)

  /** White space as Go's `unicode.IsSpace` defines it. */
  predicate IsSpace(c: char) {
    || c in "\t\n\U{000B}\U{000C}\r \U{0085}\U{00A0}\U{1680}\U{2028}\U{2029}\U{202F}\U{205F}\U{3000}"
    || '\U{2000}' <= c <= '\U{200A}'
  }

  function TrimLeft(s: string): (r: string)
    ensures r == "" || !IsSpace(r[0])
  {
    if s == "" || !IsSpace(s[0]) then s else TrimLeft(s[1..])
  }

  function TrimRight(s: string): (r: string)
    ensures r <= s
    ensures r == "" || !IsSpace(r[|r| - 1])
  {
    if s == "" || !IsSpace(s[|s| - 1]) then s else TrimRight(s[..|s| - 1])
  }

  /** `strings.TrimSpace`: no white space is left at either end. */
  function Trim(s: string): (r: string)
    ensures r == "" || (!IsSpace(r[0]) && !IsSpace(r[|r| - 1]))
  {
    TrimRight(TrimLeft(s))
  }

  predicate AllSpace(s: string) {
    forall i | 0 <= i < |s| :: IsSpace(s[i])
  }

  /** The code points of the Unicode property White_Space, and no other. */
  lemma SpacesByCode(c: char)
    ensures IsSpace(c) <==>
            || c as int in {9, 10, 11, 12, 13, 32, 0x85, 0xA0, 0x1680, 0x2028, 0x2029, 0x202F, 0x205F, 0x3000}
            || 0x2000 <= c as int <= 0x200A
  {
    assert "\t\n\U{000B}\U{000C}\r \U{0085}\U{00A0}\U{1680}\U{2028}\U{2029}\U{202F}\U{205F}\U{3000}" ==
           [9 as char, 10 as char, 11 as char, 12 as char, 13 as char, 32 as char, 0x85 as char, 0xA0 as char,
            0x1680 as char, 0x2028 as char, 0x2029 as char, 0x202F as char, 0x205F as char, 0x3000 as char];
  }

  lemma {:induction false} TrimLeftCut(s: string) returns (i: nat)
    ensures i <= |s| && TrimLeft(s) == s[i..] && AllSpace(s[..i])
  {
    if s == "" || !IsSpace(s[0]) {
      i := 0;
    } else {
      var k := TrimLeftCut(s[1..]);
      i := k + 1;
      assert s[1..][k..] == s[i..];
      forall q | 0 <= q < i ensures IsSpace(s[..i][q]) {
        if q > 0 { assert s[1..][..k][q - 1] == s[q]; }
      }
    }
  }

  lemma {:induction false} TrimRightCut(s: string) returns (j: nat)
    ensures j <= |s| && TrimRight(s) == s[..j] && AllSpace(s[j..])
  {
    if s == "" || !IsSpace(s[|s| - 1]) {
      j := |s|;
      assert s[..j] == s && s[j..] == "";
    } else {
      var before := s[..|s| - 1];
      j := TrimRightCut(before);
      assert before[..j] == s[..j];
      SpaceFrom(before, j);
      hide AllSpace;
      SpaceGrows(s, j);
    }
  }

  lemma SpaceGrows(s: string, j: nat)
    requires j < |s| && IsSpace(s[|s| - 1])
    requires var before := s[..|s| - 1]; forall i | j <= i < |before| :: IsSpace(before[i])
    ensures AllSpace(s[j..])
  {
    hide IsSpace;
    forall i | j <= i < |s| - 1 ensures IsSpace(s[i]) { assert s[..|s| - 1][i] == s[i]; }
  }

  lemma SpaceJoins(s: string, i: nat)
    requires i <= |s| && AllSpace(s[..i]) && AllSpace(s[i..])
    ensures AllSpace(s)
  {
    hide IsSpace;
    forall q | 0 <= q < |s| ensures IsSpace(s[q]) {
      assert s == s[..i] + s[i..];
    }
  }

  /** Trimming cuts white space off both ends and nothing else. */
  lemma {:induction false} TrimCutsSpace(s: string) returns (i: nat, j: nat)
    ensures i <= j <= |s| && Trim(s) == s[i..j] && AllSpace(s[..i]) && AllSpace(s[j..])
    ensures Trim(s) == "" <==> AllSpace(s)
  {
    hide TrimLeft, TrimRight, IsSpace;
    i := TrimLeftCut(s);
    var k := TrimRightCut(s[i..]);
    j := i + k;
    assert s[i..][..k] == s[i..j] && s[i..][k..] == s[j..];
    if Trim(s) == "" {
      SpaceJoins(s, i);
    }
    if Trim(s) != "" {
      assert Trim(s)[0] == s[i] && !IsSpace(s[i]);
    }
  }

  /** And so is what is between the white space, wherever that is found. */
  lemma {:induction false} TrimIs(s: string, i: nat, j: nat)
    requires i < j <= |s| && AllSpace(s[..i]) && AllSpace(s[j..]) && !IsSpace(s[i]) && !IsSpace(s[j - 1])
    ensures Trim(s) == s[i..j]
  {
    hide IsSpace, TrimLeft, TrimRight, Trim;
    var k, l := TrimCutsSpace(s);
    SpaceBefore(s, i);
    SpaceFrom(s, j);
    SpaceBefore(s, k);
    SpaceFrom(s, l);
    hide AllSpace;
    TrimEnds(s, k, l);
    NotAllSpace(s, i);
  }

  lemma SpaceBefore(s: string, k: nat)
    requires k <= |s| && AllSpace(s[..k])
    ensures forall i | 0 <= i < k :: IsSpace(s[i])
  {
    hide IsSpace;
    forall i | 0 <= i < k ensures IsSpace(s[i]) { assert s[..k][i] == s[i]; }
  }

  lemma SpaceFrom(s: string, k: nat)
    requires k <= |s| && AllSpace(s[k..])
    ensures forall i | k <= i < |s| :: IsSpace(s[i])
  {
    hide IsSpace;
    forall i | k <= i < |s| ensures IsSpace(s[i]) { assert s[k..][i - k] == s[i]; }
  }

  lemma TrimEnds(s: string, k: nat, l: nat)
    requires k <= l <= |s| && Trim(s) == s[k..l]
    ensures k < l ==> !IsSpace(s[k]) && !IsSpace(s[l - 1])
  {
    hide IsSpace, TrimLeft, TrimRight;
    if k < l { assert Trim(s)[0] == s[k] && Trim(s)[l - k - 1] == s[l - 1]; }
  }

  lemma NotAllSpace(s: string, i: nat)
    requires i < |s| && !IsSpace(s[i])
    ensures !AllSpace(s)
  {
  }

  lemma {:induction false} TrimIsBlank(s: string)
    requires AllSpace(s)
    ensures Trim(s) == ""
  {
    var i, j := TrimCutsSpace(s);
  }

  lemma TrimOfTrimmed(s: string)
    requires s != "" && !IsSpace(s[0]) && !IsSpace(s[|s| - 1])
    ensures Trim(s) == s
  {
  }

  /** `strings.ToLower`, exact for every comparison the model makes: only A-Z can
      become a letter of the words "completed" and "error". */
  function LowerChar(c: char): char {
    if 'A' <= c <= 'Z' then (c as int + 32) as char else c
  }

  function Lower(s: string): string {
    seq(|s|, i requires 0 <= i < |s| => LowerChar(s[i]))
  }

  predicate HasSuffix(s: string, suffix: string) {
    |suffix| <= |s| && s[|s| - |suffix|..] == suffix
  }

  /** A Go map read: the zero value stands for an absent key. */
  function Get(m: map<string, string>, k: string): string {
    if k in m then m[k] else ""
  }

  /** `strconv.Itoa`. */
  function Itoa(n: int): (r: string)
    ensures r != ""
    decreases if n < 0 then 1 - n else n
  {
    if n < 0 then "-" + Itoa(-n)
    else if n < 10 then [('0' as int + n) as char]
    else Itoa(n / 10) + [('0' as int + n % 10) as char]
  }

  const Second: int := 1_000_000_000

  /** `d.Round(time.Second)` in whole seconds: halves go away from zero. */
  function RoundSeconds(d: int): int {
    if d < 0 then -((-d + Second / 2) / Second) else (d + Second / 2) / Second
  }

  /** Reading a numeral. */
  function Digits(s: string): int {
    if s == "" then 0 else 10 * Digits(s[..|s| - 1]) + (s[|s| - 1] as int - '0' as int)
  }

  function Numeral(s: string): int {
    if s != "" && s[0] == '-' then -Digits(s[1..]) else Digits(s)
  }

  lemma {:induction false} ItoaDigits(n: nat)
    ensures Digits(Itoa(n)) == n
    ensures forall i | 0 <= i < |Itoa(n)| :: '0' <= Itoa(n)[i] <= '9'
    ensures n > 0 ==> Itoa(n)[0] != '0'
  {
    if n < 10 {
      assert Itoa(n)[..0] == "";
    } else {
      ItoaDigits(n / 10);
      var s := Itoa(n);
      assert s[..|s| - 1] == Itoa(n / 10);
      assert s[0] == Itoa(n / 10)[0];
    }
  }

  /** A numeral reads as the number it was made from. */
  lemma {:induction false} ItoaRoundTrip(n: int)
    ensures Numeral(Itoa(n)) == n
  {
    if n < 0 {
      ItoaDigits(-n);
      assert Itoa(n)[1..] == Itoa(-n);
    } else {
      ItoaDigits(n);
    }
  }

  /** The nearest second; halfway between two, the one further from zero. */
  lemma RoundIsNearest(d: int)
    ensures var r := RoundSeconds(d);
            && 2 * d - 1_000_000_000 <= 2_000_000_000 * r <= 2 * d + 1_000_000_000
            && (2 * d == 2_000_000_000 * r - 1_000_000_000 ==> r > 0)
            && (2 * d == 2_000_000_000 * r + 1_000_000_000 ==> r < 0)
  {
  }

  lemma NoticeReads()
    ensures NoticeText(11_400_000_000) == "_Still working... (11s)_"
    ensures NoticeText(119_500_000_000) == "_Still working... (120s)_"
  {
    assert Itoa(11) == "11" && Itoa(1) == "1" && Itoa(12) == "12" && Itoa(120) == "120";
  }

  /** Case makes no difference to the words that statuses are compared with. */
  lemma LowerIgnoresCase(s: string, t: string)
    ensures |Lower(s)| == |s|
    ensures Lower(s) == Lower(t) <==>
            |s| == |t| && forall i | 0 <= i < |s| ::
              s[i] == t[i] || ('A' <= s[i] <= 'Z' && t[i] as int == s[i] as int + 32) ||
              ('A' <= t[i] <= 'Z' && s[i] as int == t[i] as int + 32)
  {
    if Lower(s) == Lower(t) {
      forall i | 0 <= i < |s|
        ensures s[i] == t[i] || ('A' <= s[i] <= 'Z' && t[i] as int == s[i] as int + 32) ||
                ('A' <= t[i] <= 'Z' && s[i] as int == t[i] as int + 32)
      {
        assert Lower(s)[i] == Lower(t)[i];
      }
    }
  }

  /** The progress notice both reply loops post. */
  function NoticeText(elapsed: int): string {
    "_Still working... (" + Itoa(RoundSeconds(elapsed)) + "s)_"
  }

  lemma NoticeIsNotEmpty(elapsed: int)
    ensures NoticeText(elapsed) != ""
  {
  }

  /** An order in which a range over a Go map with these keys may visit them: each once. */
  ghost predicate IsOrder(order: seq<string>, keys: set<string>) {
    multiset(order) == multiset(keys)
  }

  /** A range that stopped early. */
  ghost predicate IsPartialOrder(order: seq<string>, keys: set<string>) {
    multiset(order) <= multiset(keys)
  }

  ghost function AnyOrder(keys: set<string>): (order: seq<string>)
    ensures IsOrder(order, keys)
  {
    if keys == {} then []
    else
      var k :| k in keys;
      var rest := AnyOrder(keys - {k});
      OrderStep(rest, keys - {k}, k);
      assert keys - {k} + {k} == keys;
      rest + [k]
  }

  lemma OrderStep(order: seq<string>, keys: set<string>, k: string)
    requires IsOrder(order, keys) && k !in keys
    ensures IsOrder(order + [k], keys + {k})
  {
    assert multiset(keys + {k}) == multiset(keys) + multiset{k};
  }

  lemma OrderMembers(order: seq<string>, keys: set<string>)
    requires IsOrder(order, keys)
    ensures forall k :: k in order <==> k in keys
  {
    forall k ensures k in order <==> k in keys {
      assert k in order <==> k in multiset(order);
    }
  }

  lemma PartialOrder(order: seq<string>, visited: set<string>, keys: set<string>)
    requires IsOrder(order, visited) && visited <= keys
    ensures IsPartialOrder(order, keys)
  {
  }

  lemma Visited(all: set<string>, left: set<string>, k: string)
    requires k in left && left <= all
    ensures all - (left - {k}) == all - left + {k}
  {
  }

  lemma AppendNothing<T>(a: seq<T>)
    ensures a + [] == a && [] + a == a
  {
  }

  lemma SplitLast<T>(a: seq<T>, b: seq<T>)
    requires b != []
    ensures b == b[..|b| - 1] + [b[|b| - 1]] && a + b == a + b[..|b| - 1] + [b[|b| - 1]]
  {
  }

  lemma Assoc<T>(a: seq<T>, b: seq<T>, c: seq<T>)
    ensures a + b + c == a + (b + c)
  {
  }
}
