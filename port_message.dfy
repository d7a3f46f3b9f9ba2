/** The text handling applied to one `check_port` record (exporter.py:34-44):
    the status mapping, the leading port token (`re.match('^\S+', ...)`) and
    the RX/TX utilisation regex
    (`re.match(r".*(?P<rx>\S+)% RX.+(?P<tx>\S+)% TX.*", ...)`). */
module PortMessage {
  import opened Wrappers

  /** The status value: 1 exactly when the record's `port_status` is "ok". */
  function StatusValue(portStatus: string): (v: int)
    ensures v == 0 || v == 1
    ensures v == 1 <==> portStatus == "ok"
  {
    if portStatus == "ok" then 1 else 0
  }

  /** Python 3's `\s` for str patterns: the characters for which
      `str.isspace` holds. `\S` is its complement. */
  predicate IsSpace(c: char) {
    var n := c as int;
    || 9 <= n <= 13
    || 28 <= n <= 32
    || n == 0x85 || n == 0xA0 || n == 0x1680
    || 0x2000 <= n <= 0x200A
    || n == 0x2028 || n == 0x2029 || n == 0x202F || n == 0x205F || n == 0x3000
  }

  predicate NonSpace(s: string, lo: int, hi: int)
    requires 0 <= lo <= hi <= |s|
  {
    forall k :: lo <= k < hi ==> !IsSpace(s[k])
  }

  /** What `.` may consume: anything but a line feed. */
  predicate NoNewline(s: string, lo: int, hi: int)
    requires 0 <= lo <= hi <= |s|
  {
    forall k :: lo <= k < hi ==> s[k] != '\n'
  }

  predicate LiteralAt(s: string, k: int, lit: string) {
    0 <= k && k + |lit| <= |s| && s[k..k + |lit|] == lit
  }

  // ---------------------------------------------------------------------
  // The port token: `re.match('^\S+', message)[0]`.

  /** The end of the run of non-whitespace characters that starts at `i`. */
  function TokenEnd(s: string, i: nat): (e: nat)
    requires i <= |s|
    ensures i <= e <= |s|
    ensures NonSpace(s, i, e)
    ensures e == |s| || IsSpace(s[e])
    decreases |s| - i
  {
    if i == |s| || IsSpace(s[i]) then i else TokenEnd(s, i + 1)
  }

  /** The port label: the maximal leading run of non-whitespace characters.
      `None` when the message is empty or starts with whitespace; Python then
      has no match object and `m[0]` raises. */
  function LeadingToken(message: string): (r: Option<string>)
    ensures r.None? <==> (message == [] || IsSpace(message[0]))
    ensures r.Some? ==>
      var n := |r.value|;
      && 0 < n <= |message|
      && r.value == message[..n]
      && NonSpace(message, 0, n)
      && (n == |message| || IsSpace(message[n]))
  {
    var e := TokenEnd(message, 0);
    if e == 0 then None else Some(message[..e])
  }

  // ---------------------------------------------------------------------
  // The RX/TX regex, as a specification.

  /** The split points of a match of `.*(\S+)% RX.+(\S+)% TX.*` anchored at
      index 0: `.*` covers [0, a), the rx group [a, b), the literal "% RX"
      [b, b + 4), `.+` covers [b + 4, c), the tx group [c, d) and "% TX"
      [d, d + 4). The trailing `.*` can always match the empty string. */
  ghost predicate UtilSplit(m: string, a: int, b: int, c: int, d: int) {
    && 0 <= a < b
    && b + 4 < c < d
    && d + 4 <= |m|
    && NoNewline(m, 0, a)
    && NonSpace(m, a, b)
    && LiteralAt(m, b, "% RX")
    && NoNewline(m, b + 4, c)
    && NonSpace(m, c, d)
    && LiteralAt(m, d, "% TX")
  }

  /** Backtracking tries greedy quantifiers longest first, left to right, so
      split (a', b', c', d') is tried before (a, b, c, d) when it is
      lexicographically greater. */
  predicate TriedBefore(a': int, b': int, c': int, d': int, a: int, b: int, c: int, d: int) {
    || a' > a
    || (a' == a && b' > b)
    || (a' == a && b' == b && c' > c)
    || (a' == a && b' == b && c' == c && d' > d)
  }

  /** The split Python's `re.match` reports: a split that no other split is
      tried before. */
  ghost predicate ChosenSplit(m: string, a: int, b: int, c: int, d: int) {
    && UtilSplit(m, a, b, c, d)
    && forall a', b', c', d' :: UtilSplit(m, a', b', c', d') ==> !TriedBefore(a', b', c', d', a, b, c, d)
  }

  /** Because every quantifier is greedy, the reported groups are single
      characters: in "15% RX" the rx group is "5". */
  lemma GroupsAreSingleCharacters(m: string, a: int, b: int, c: int, d: int)
    requires ChosenSplit(m, a, b, c, d)
    ensures b == a + 1 && d == c + 1
  {
    if a + 1 < b {
      assert !IsSpace(m[a]);
      assert UtilSplit(m, a + 1, b, c, d);
      assert TriedBefore(a + 1, b, c, d, a, b, c, d);
    }
    if c + 1 < d {
      assert !IsSpace(m[c]);
      assert UtilSplit(m, a, b, c + 1, d);
      assert TriedBefore(a, b, c + 1, d, a, b, c, d);
    }
  }

  // ---------------------------------------------------------------------
  // The RX/TX regex, as a scan.

  /** A literal `lit` at index k preceded by a non-whitespace character:
      where a one-character group can end right before the literal. */
  predicate MarkAt(m: string, lit: string, k: int) {
    1 <= k && LiteralAt(m, k, lit) && !IsSpace(m[k - 1])
  }

  /** Index of the first line feed, or |s| when there is none. */
  function FirstNewline(s: string, from: nat): (n: nat)
    requires from <= |s|
    ensures from <= n <= |s|
    ensures NoNewline(s, from, n)
    ensures n == |s| || s[n] == '\n'
    decreases |s| - from
  {
    if from == |s| || s[from] == '\n' then from else FirstNewline(s, from + 1)
  }

  /** The largest k <= hi where `MarkAt(m, lit, k)` holds, if any. */
  function LastMark(m: string, lit: string, hi: nat): (r: Option<nat>)
    ensures r.Some? ==> r.value <= hi && MarkAt(m, lit, r.value)
    ensures r.Some? ==> forall k :: r.value < k <= hi ==> !MarkAt(m, lit, k)
    ensures r.None? ==> forall k :: 0 <= k <= hi ==> !MarkAt(m, lit, k)
    decreases hi
  {
    if MarkAt(m, lit, hi) then Some(hi)
    else if hi == 0 then None
    else LastMark(m, lit, hi - 1)
  }

  /** Every split of a match ends its rx group right before a "% RX" mark
      and its tx group right before a "% TX" mark, at least six characters
      apart, with no line feed before the tx mark. */
  lemma SplitMarks(m: string)
    ensures forall a, b, c, d :: UtilSplit(m, a, b, c, d) ==>
      && MarkAt(m, "% RX", b)
      && MarkAt(m, "% TX", d)
      && b + 6 <= d
      && d <= FirstNewline(m, 0)
  {
    forall a, b, c, d | UtilSplit(m, a, b, c, d)
      ensures MarkAt(m, "% RX", b) && MarkAt(m, "% TX", d) && d <= FirstNewline(m, 0)
    {
      assert !IsSpace(m[b - 1]);
      assert !IsSpace(m[d - 1]);
      forall k | 0 <= k < d
        ensures m[k] != '\n'
      {
        if a <= k < b || c <= k < d {
          assert !IsSpace(m[k]);
        } else if b <= k < b + 4 {
          assert m[b..b + 4][k - b] == m[k];
        }
      }
    }
  }

  /** The RX and TX captures of the regex, when it matches. */
  function RxTx(m: string): (r: Option<(string, string)>)
    ensures r.None? <==> !exists a, b, c, d :: UtilSplit(m, a, b, c, d)
    ensures r.Some? ==> exists a, b, c, d ::
      ChosenSplit(m, a, b, c, d) && r.value == (m[a..b], m[c..d])
  {
    var n := FirstNewline(m, 0);
    var tx := LastMark(m, "% TX", n);
    if tx.None? || tx.value < 6 then
      NoTxMark(m);
      None
    else
      var j := tx.value;
      var rx := LastMark(m, "% RX", j - 6);
      if rx.None? then
        NoRxMark(m, j);
        None
      else
        var i := rx.value;
        LastMarksChosen(m, i, j);
        Some((m[i - 1..i], m[j - 1..j]))
  }

  /** Without a "% TX" mark at index 6 or later before the first line feed
      there is no match. */
  lemma NoTxMark(m: string)
    requires var tx := LastMark(m, "% TX", FirstNewline(m, 0)); tx.None? || tx.value < 6
    ensures !exists a, b, c, d :: UtilSplit(m, a, b, c, d)
  {
    SplitMarks(m);
  }

  /** With the last "% TX" mark at j and no "% RX" mark six or more
      characters before it there is no match. */
  lemma NoRxMark(m: string, j: nat)
    requires 6 <= j && LastMark(m, "% TX", FirstNewline(m, 0)) == Some(j)
    requires LastMark(m, "% RX", j - 6).None?
    ensures !exists a, b, c, d :: UtilSplit(m, a, b, c, d)
  {
    SplitMarks(m);
  }

  /** The last marks found by the scan give the split backtracking reports. */
  lemma LastMarksChosen(m: string, i: nat, j: nat)
    requires 6 <= j && LastMark(m, "% TX", FirstNewline(m, 0)) == Some(j)
    requires LastMark(m, "% RX", j - 6) == Some(i)
    ensures ChosenSplit(m, i - 1, i, j - 1, j)
  {
    SplitMarks(m);
    assert UtilSplit(m, i - 1, i, j - 1, j);
  }

  // ---------------------------------------------------------------------
  // Messages with one "% RX" and one "% TX".

  /** In a split of such a message the marks sit where the literals are. */
  lemma SplitAtOnlyMarks(m: string, i: int, j: int, a: int, b: int, c: int, d: int)
    requires forall k :: 0 <= k < |m| && m[k] == '%' ==> k == i || k == j
    requires i + 6 <= j
    requires UtilSplit(m, a, b, c, d)
    ensures b == i && d == j
  {
    assert m[b] == m[b..b + 4][0];
    assert m[d] == m[d..d + 4][0];
  }

  lemma RxTxAtOnlyMarks(m: string, i: int, j: int)
    requires 1 <= i && i + 6 <= j && j + 4 <= |m|
    requires forall k :: 0 <= k < |m| && m[k] == '%' ==> k == i || k == j
    requires NoNewline(m, 0, j) && !IsSpace(m[i - 1]) && !IsSpace(m[j - 1])
    requires m[i..i + 4] == "% RX" && m[j..j + 4] == "% TX"
    ensures RxTx(m) == Some((m[i - 1..i], m[j - 1..j]))
  {
    assert UtilSplit(m, i - 1, i, j - 1, j);
    var r := RxTx(m);
    var a, b, c, d :| ChosenSplit(m, a, b, c, d) && r.value == (m[a..b], m[c..d]);
    GroupsAreSingleCharacters(m, a, b, c, d);
    SplitAtOnlyMarks(m, i, j, a, b, c, d);
  }

  /** For `before + "% RX" + between + "% TX" + after` with no other '%'
      and no line feed before the tx mark, the captures are the last
      character of `before` and the last character of `between`. */
  lemma RxTxOfSingleMarks(before: string, between: string, after: string)
    requires '%' !in before && '%' !in between && '%' !in after
    requires '\n' !in before && '\n' !in between
    requires |before| >= 1 && !IsSpace(before[|before| - 1])
    requires |between| >= 2 && !IsSpace(between[|between| - 1])
    ensures RxTx(before + "% RX" + between + "% TX" + after)
      == Some((before[|before| - 1..], between[|between| - 1..]))
  {
    var m := before + "% RX" + between + "% TX" + after;
    var i, j := |before|, |before| + 4 + |between|;
    forall k | 0 <= k < |m| ensures (k < j ==> m[k] != '\n') && (m[k] == '%' ==> k == i || k == j) {
      if k < i { assert m[k] == before[k]; }
      else if i + 4 <= k < j { assert m[k] == between[k - i - 4]; }
      else if j + 4 <= k { assert m[k] == after[k - j - 4]; }
    }
    assert m[i..i + 4] == "% RX";
    assert m[j..j + 4] == "% TX";
    assert m[i - 1..i] == before[|before| - 1..];
    assert m[j - 1..j] == between[|between| - 1..];
    RxTxAtOnlyMarks(m, i, j);
  }

  /** A message that starts with a word followed by whitespace (or nothing)
      has that word as its port label. */
  lemma LeadingTokenOfWord(word: string, rest: string)
    requires word != [] && NonSpace(word, 0, |word|)
    requires rest == [] || IsSpace(rest[0])
    ensures LeadingToken(word + rest) == Some(word)
  {
    var m := word + rest;
    assert NonSpace(m, 0, |word|);
    assert |word| == |m| || IsSpace(m[|word|]);
    assert m[..|word|] == word;
  }

  /** The message quoted in exporter.py:37, written in pieces. */
  function SampleMessage(): string {
    "swp15" + " port is UP, 0" + "% RX" + " Utilized of 100 Gbps, 0" + "% TX" + " Utilized of 100 Gbps"
  }

  /** The quoted message gives port "swp15". */
  lemma SampleMessagePort()
    ensures LeadingToken(SampleMessage()) == Some("swp15")
  {
    var rest := " port is UP, 0" + "% RX" + " Utilized of 100 Gbps, 0" + "% TX" + " Utilized of 100 Gbps";
    assert SampleMessage() == "swp15" + rest;
    assert NonSpace("swp15", 0, 5);
    LeadingTokenOfWord("swp15", rest);
  }

  /** The quoted message gives rx "0" and tx "0". */
  lemma SampleMessageUtilization()
    ensures RxTx(SampleMessage()) == Some(("0", "0"))
  {
    var before, between, after := "swp15 port is UP, 0", " Utilized of 100 Gbps, 0", " Utilized of 100 Gbps";
    assert "swp15" + " port is UP, 0" == before;
    SamplePieces();
    RxTxOfSingleMarks(before, between, after);
  }

  lemma SamplePieces()
    ensures var before, between, after := "swp15 port is UP, 0", " Utilized of 100 Gbps, 0", " Utilized of 100 Gbps";
      && '%' !in before && '%' !in between && '%' !in after
      && '\n' !in before && '\n' !in between
      && before[|before| - 1..] == "0" && between[|between| - 1..] == "0"
  {
  }

  /** Greedy `.*` leaves one character to each group: "15% RX" captures
      "5", "27% TX" captures "7". */
  lemma GreedyCapture()
    ensures RxTx("p 15" + "% RX" + ", 27" + "% TX") == Some(("5", "7"))
  {
    RxTxOfSingleMarks("p 15", ", 27", "");
    assert "p 15" + "% RX" + ", 27" + "% TX" + "" == "p 15" + "% RX" + ", 27" + "% TX";
  }
}
