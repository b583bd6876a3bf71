/** Strings as sequences of code units, and the few operations both sides of the wire use. */
module Text {
  datatype Option<+T> = None | Some(value: T)

  /** Index of the first `c`, or the length when there is none. */
  function IndexOf(s: string, c: char): (i: nat)
    ensures i <= |s| && (i < |s| ==> s[i] == c)
  {
    if s == "" || s[0] == c then 0 else 1 + IndexOf(s[1..], c)
  }

  function SplitFirst(s: string): (string, string) {
    var i := IndexOf(s, ' ');
    if i == |s| then (s, "") else (s[..i], s[i + 1..])
  }

  predicate SpaceFree(s: string) {
    forall i :: 0 <= i < |s| ==> s[i] != ' '
  }

  predicate Lacks(s: string, c: char) {
    forall i :: 0 <= i < |s| ==> s[i] != c
  }

  lemma {:induction false} IndexOfAppend(head: string, c: char, tail: string)
    requires Lacks(head, c)
    ensures IndexOf(head + [c] + tail, c) == |head|
    ensures IndexOf(head, c) == |head|
  {
    var s := head + [c] + tail;
    if head != "" {
      assert s[1..] == head[1..] + [c] + tail;
      IndexOfAppend(head[1..], c, tail);
    }
  }

  /** A space-free field followed by a space is split off exactly. */
  lemma SplitField(head: string, tail: string)
    requires SpaceFree(head)
    ensures SplitFirst(head + " " + tail) == (head, tail)
    ensures SplitFirst(head) == (head, "")
  {
    IndexOfAppend(head, ' ', tail);
    var s := head + " " + tail;
    assert s[..|head|] == head && s[|head| + 1..] == tail;
  }

  predicate LineBreak(c: char) {
    c == '\r' || c == '\n'
  }

  /** Drops every trailing CR and LF. */
  function StripLineEnd(s: string): (r: string)
    ensures r <= s
    ensures r == "" || !LineBreak(r[|r| - 1])
  {
    if s != "" && LineBreak(s[|s| - 1]) then StripLineEnd(s[..|s| - 1]) else s
  }

  predicate EndsInLineBreak(s: string) {
    s != "" && LineBreak(s[|s| - 1])
  }

  lemma StripIsIdentity(s: string)
    ensures StripLineEnd(s) == s <==> !EndsInLineBreak(s)
  {
  }

  /** isspace in the C locale. */
  predicate Whitespace(c: char) {
    c == ' ' || '\t' <= c <= '\r'
  }

  function SkipSpaces(s: string): string {
    if s != "" && Whitespace(s[0]) then SkipSpaces(s[1..]) else s
  }

  /** Length of the run of non-space characters at the front. */
  function TokenLength(s: string): (n: nat)
    ensures n <= |s|
  {
    if s == "" || Whitespace(s[0]) then 0 else 1 + TokenLength(s[1..])
  }

  /** One `stream >> token`: the token ("" at end of input) and the unread rest. */
  function NextToken(s: string): (string, string) {
    var t := SkipSpaces(s);
    var n := TokenLength(t);
    (t[..n], t[n..])
  }

  lemma {:induction false} WholeToken(s: string)
    requires forall i :: 0 <= i < |s| ==> !Whitespace(s[i])
    ensures TokenLength(s) == |s| && SkipSpaces(s) == s
  {
    if s != "" { WholeToken(s[1..]); }
  }

  function Digit(d: nat): char
    requires d < 10
  {
    "0123456789"[d]
  }

  /** std::to_string of a non-negative number. */
  function Decimal(n: nat): (s: string)
    ensures s != ""
    ensures forall i :: 0 <= i < |s| ==> '0' <= s[i] <= '9'
  {
    if n < 10 then [Digit(n)] else Decimal(n / 10) + [Digit(n % 10)]
  }

  /** Decimal read backwards. */
  function DecimalValue(s: string): nat
    requires forall i :: 0 <= i < |s| ==> '0' <= s[i] <= '9'
  {
    if s == "" then 0 else DecimalValue(s[..|s| - 1]) * 10 + (s[|s| - 1] as nat - '0' as nat)
  }

  lemma {:induction false} DecimalRoundTrip(n: nat)
    ensures DecimalValue(Decimal(n)) == n
  {
    var s := Decimal(n);
    if n >= 10 {
      DecimalRoundTrip(n / 10);
      assert s[..|s| - 1] == Decimal(n / 10);
    } else {
      assert s[..0] == "";
    }
  }

  lemma {:induction false} DecimalLength(n: nat, digits: nat, limit: nat)
    requires n < limit && limit == PowerOfTen(digits) && digits > 0
    ensures |Decimal(n)| <= digits
  {
    if n >= 10 {
      DecimalLength(n / 10, digits - 1, limit / 10);
    }
  }

  function PowerOfTen(k: nat): nat {
    if k == 0 then 1 else 10 * PowerOfTen(k - 1)
  }

  const MAX_NICKNAME_LENGTH: nat := 24

  predicate NicknameChar(c: char) {
    'a' <= c <= 'z' || 'A' <= c <= 'Z' || '0' <= c <= '9' || c == '_' || c == '-'
  }

  predicate ValidNickname(s: string) {
    1 <= |s| <= MAX_NICKNAME_LENGTH && forall i :: 0 <= i < |s| ==> NicknameChar(s[i])
  }

  lemma ValidNicknameIsSpaceFree(s: string)
    requires ValidNickname(s)
    ensures SpaceFree(s) && ColonFree(s)
  {
  }

  predicate ColonFree(s: string) {
    forall i :: 0 <= i < |s| ==> s[i] != ':'
  }

  /** Lexicographic order by code unit, as Array.prototype.sort and std::sort compare strings. */
  predicate StringLe(a: string, b: string) {
    a == "" || (b != "" && (a[0] < b[0] || (a[0] == b[0] && StringLe(a[1..], b[1..]))))
  }

  lemma {:induction false} StringLeTotal(a: string, b: string)
    ensures StringLe(a, b) || StringLe(b, a)
    ensures StringLe(a, b) && StringLe(b, a) ==> a == b
  {
    if a != "" && b != "" && a[0] == b[0] {
      StringLeTotal(a[1..], b[1..]);
      assert a == [a[0]] + a[1..] && b == [b[0]] + b[1..];
    }
  }

  // Lists.

  predicate NoDuplicates<T(==)>(s: seq<T>) {
    forall i, j :: 0 <= i < j < |s| ==> s[i] != s[j]
  }

  /** ids.find((id) => id !== self) */
  function FirstOther(ids: seq<string>, self: string): Option<string> {
    if ids == [] then None else if ids[0] != self then Some(ids[0]) else FirstOther(ids[1..], self)
  }

  /** ids.filter((x) => x !== id) */
  function Without(ids: seq<string>, id: string): (rest: seq<string>)
    ensures forall x :: x in rest <==> x in ids && x != id
  {
    if ids == [] then []
    else
      var rest := Without(ids[1..], id);
      assert ids == [ids[0]] + ids[1..];
      if ids[0] == id then rest else [ids[0]] + rest
  }
}
