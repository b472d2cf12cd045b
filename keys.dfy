/**
 * Cache keys for the two fetch paths: `collection_<id>_<count>` and
 * `search_<query lower-cased and trimmed>` (src/services/api.ts:59, :95).
 * Case mapping and trimming are restricted to ASCII.
 */
module Keys {

  const CollectionPrefix: string := "collection_"
  const SearchPrefix: string := "search_"

  // ---------------------------------------------------------------------
  // ASCII `toLowerCase`

  predicate IsUpper(c: char) { 'A' <= c <= 'Z' }

  function LowerChar(c: char): (d: char)
    ensures !IsUpper(d)
    ensures !IsUpper(c) ==> d == c
  {
    if IsUpper(c) then (c as int + 32) as char else c
  }

  /** `s.toLowerCase()` on ASCII: every letter A-Z becomes a-z, nothing else moves. */
  function Lower(s: string): (r: string)
    ensures |r| == |s|
    ensures forall i :: 0 <= i < |s| ==> r[i] == LowerChar(s[i])
  {
    if s == [] then [] else [LowerChar(s[0])] + Lower(s[1..])
  }

  ghost predicate NoUpper(s: string) {
    forall i :: 0 <= i < |s| ==> !IsUpper(s[i])
  }

  /** Lower-casing leaves no upper-case letter, and changes nothing that has none. */
  lemma {:induction false} LowerCharacterised(s: string)
    ensures NoUpper(Lower(s))
    ensures Lower(s) == s <==> NoUpper(s)
  {
    if NoUpper(s) {
      assert forall i :: 0 <= i < |s| ==> Lower(s)[i] == s[i];
    } else {
      var i :| 0 <= i < |s| && IsUpper(s[i]);
      assert Lower(s)[i] != s[i];
    }
  }

  // ---------------------------------------------------------------------
  // ASCII `trim`

  /** The white space `String.prototype.trim` removes, restricted to ASCII. */
  predicate IsSpace(c: char) {
    c == ' ' || c == '\t' || c == '\n' || c == '\U{0B}' || c == '\U{0C}' || c == '\r'
  }

  ghost predicate AllSpace(s: string) {
    forall k :: 0 <= k < |s| ==> IsSpace(s[k])
  }

  /** Nothing left to trim: empty, or no white space at either end. */
  ghost predicate Trimmed(s: string) {
    s == [] || (!IsSpace(s[0]) && !IsSpace(s[|s| - 1]))
  }

  /** `r` sits at offset `i` of `s` with only white space around it. */
  ghost predicate Surrounds(s: string, r: string, i: int) {
    && 0 <= i && i + |r| <= |s|
    && (forall k :: 0 <= k < |r| ==> r[k] == s[i + k])
    && (forall k :: 0 <= k < i ==> IsSpace(s[k]))
    && (forall k :: i + |r| <= k < |s| ==> IsSpace(s[k]))
  }

  /** Drops the leading white space: what is dropped is all white space, what is kept starts with none. */
  function TrimStart(s: string): (r: string)
    ensures |r| <= |s|
    ensures forall k :: 0 <= k < |s| - |r| ==> IsSpace(s[k])
    ensures r == [] || !IsSpace(r[0])
  {
    if s != [] && IsSpace(s[0]) then TrimStart(s[1..]) else s
  }

  /** What `TrimStart` keeps is the tail of `s` of its length: its `i`-th character is the matching one of `s`. */
  lemma {:induction false} TrimStartAt(s: string, i: int)
    requires 0 <= i < |TrimStart(s)|
    ensures TrimStart(s)[i] == s[|s| - |TrimStart(s)| + i]
  {
    if s != [] && IsSpace(s[0]) {
      TrimStartAt(s[1..], i);
      assert s[1..][|s| - 1 - |TrimStart(s)| + i] == s[|s| - |TrimStart(s)| + i];
    }
  }

  /** Drops the trailing white space: what is dropped is all white space, what is kept ends with none. */
  function TrimEnd(s: string): (r: string)
    ensures |r| <= |s| && forall i :: 0 <= i < |r| ==> r[i] == s[i]
    ensures forall k :: |r| <= k < |s| ==> IsSpace(s[k])
    ensures r == [] || !IsSpace(r[|r| - 1])
  {
    if s != [] && IsSpace(s[|s| - 1]) then TrimEnd(s[..|s| - 1]) else s
  }

  /** `s.trim()`: drops the white space at both ends. */
  function Trim(s: string): (r: string)
    ensures |r| <= |s| && Trimmed(r)
  {
    var t := TrimStart(s);
    var r := TrimEnd(t);
    assert r != [] ==> r[0] == t[0];
    r
  }

  /** The trimmed string is what lies between a leading and a trailing run of white space of `s`. */
  lemma {:induction false} TrimShape(s: string)
    ensures Surrounds(s, Trim(s), |s| - |TrimStart(s)|)
  {
    var t := TrimStart(s);
    var r := TrimEnd(t);
    var i := |s| - |t|;
    forall k | 0 <= k < |r| ensures r[k] == s[i + k] {
      assert r[k] == t[k];
      TrimStartAt(s, k);
    }
    forall k | i + |r| <= k < |s| ensures IsSpace(s[k]) {
      assert IsSpace(t[k - i]);
      TrimStartAt(s, k - i);
    }
  }

  /** A string with nothing to trim is its own trim. */
  lemma {:induction false} TrimOfTrimmed(s: string)
    requires Trimmed(s)
    ensures Trim(s) == s
  {
    assert TrimStart(s) == s;
    assert TrimEnd(s) == s;
  }

  // ---------------------------------------------------------------------
  // Search keys

  /** The part of the search key taken from the query: `query.toLowerCase().trim()`. */
  function NormalizeQuery(query: string): (r: string)
    ensures Trimmed(r) && NoUpper(r)
  {
    LowerCharacterised(query);
    TrimKeepsNoUpper(Lower(query));
    Trim(Lower(query))
  }

  /** Trimming keeps only characters of its input, so a string with no upper-case letter trims to one. */
  lemma {:induction false} TrimKeepsNoUpper(s: string)
    requires NoUpper(s)
    ensures NoUpper(Trim(s))
  {
    var t := TrimStart(s);
    var r := TrimEnd(t);
    forall k | 0 <= k < |r| ensures !IsUpper(r[k]) {
      assert r[k] == t[k];
      TrimStartAt(s, k);
    }
  }

  /** The search key: the prefix, then a query text with no upper-case letter and no white space at either end. */
  function SearchKey(query: string): (r: string)
    ensures SearchPrefix <= r
    ensures Trimmed(r[|SearchPrefix|..]) && NoUpper(r[|SearchPrefix|..])
  {
    var r := SearchPrefix + NormalizeQuery(query);
    assert r[|SearchPrefix|..] == NormalizeQuery(query);
    r
  }

  /** Normalising a query twice gives what normalising it once gives. */
  lemma {:induction false} NormalizeQueryIdempotent(query: string)
    ensures NormalizeQuery(NormalizeQuery(query)) == NormalizeQuery(query)
  {
    var n := NormalizeQuery(query);
    LowerCharacterised(n);
    TrimOfTrimmed(n);
  }

  /** Two queries share a search key exactly when they normalise alike. */
  lemma {:induction false} SearchKeyIdentifiesQuery(q1: string, q2: string)
    ensures SearchKey(q1) == SearchKey(q2) <==> NormalizeQuery(q1) == NormalizeQuery(q2)
  {
    if SearchKey(q1) == SearchKey(q2) {
      assert SearchKey(q1)[|SearchPrefix|..] == NormalizeQuery(q1);
      assert SearchKey(q2)[|SearchPrefix|..] == NormalizeQuery(q2);
    }
  }

  /** The search key of a normalised query is the search key of the query itself. */
  lemma {:induction false} SearchKeyOfNormalized(query: string)
    ensures SearchKey(NormalizeQuery(query)) == SearchKey(query)
  {
    NormalizeQueryIdempotent(query);
  }

  /** Lower-casing works character by character, so it distributes over concatenation. */
  lemma {:induction false} LowerConcat(a: string, b: string)
    ensures Lower(a + b) == Lower(a) + Lower(b)
  {
    forall i | 0 <= i < |a + b|
      ensures Lower(a + b)[i] == (Lower(a) + Lower(b))[i]
    {
      if i < |a| {
        assert (a + b)[i] == a[i];
      } else {
        assert (a + b)[i] == b[i - |a|];
      }
    }
  }

  lemma {:induction false} TrimStartSkipsSpace(pre: string, t: string)
    requires AllSpace(pre)
    ensures TrimStart(pre + t) == TrimStart(t)
  {
    if pre == [] {
      assert pre + t == t;
    } else {
      assert (pre + t)[0] == pre[0];
      assert (pre + t)[1..] == pre[1..] + t;
      TrimStartSkipsSpace(pre[1..], t);
    }
  }

  lemma {:induction false} TrimEndSkipsSpace(t: string, post: string)
    requires AllSpace(post)
    ensures TrimEnd(t + post) == TrimEnd(t)
  {
    if post == [] {
      assert t + post == t;
    } else {
      var n := |post| - 1;
      assert (t + post)[|t + post| - 1] == post[n];
      assert (t + post)[..|t + post| - 1] == t + post[..n];
      TrimEndSkipsSpace(t, post[..n]);
    }
  }

  /** Appending text to a string with a non-blank character does not change where it starts. */
  lemma {:induction false} TrimStartAppend(s: string, post: string)
    ensures TrimStart(s + post) == if AllSpace(s) then TrimStart(post) else TrimStart(s) + post
  {
    if s == [] {
      assert s + post == post;
    } else if IsSpace(s[0]) {
      assert (s + post)[1..] == s[1..] + post;
      TrimStartAppend(s[1..], post);
      assert AllSpace(s) == AllSpace(s[1..]);
    } else {
      assert (s + post)[0] == s[0];
    }
  }

  /** A blank string trims to nothing. */
  lemma {:induction false} BlankTrimsToEmpty(s: string, post: string)
    requires AllSpace(s) && AllSpace(post)
    ensures TrimStart(s + post) == []
  {
    TrimStartAppend(s, post);
    TrimStartSkipsSpace(post, []);
    assert post + [] == post;
  }

  /** Trimming ignores white space added at either end. */
  lemma {:induction false} TrimIgnoresPadding(pre: string, s: string, post: string)
    requires AllSpace(pre) && AllSpace(post)
    ensures Trim(pre + s + post) == Trim(s)
  {
    assert pre + s + post == pre + (s + post);
    TrimStartSkipsSpace(pre, s + post);
    if AllSpace(s) {
      BlankTrimsToEmpty(s, post);
      BlankTrimsToEmpty(s, []);
      assert s + [] == s;
    } else {
      TrimStartAppend(s, post);
      TrimEndSkipsSpace(TrimStart(s), post);
    }
  }

  /** White space added at either end of a query does not change its search key. */
  lemma {:induction false} SearchKeyIgnoresPadding(pre: string, query: string, post: string)
    requires AllSpace(pre) && AllSpace(post)
    ensures SearchKey(pre + query + post) == SearchKey(query)
  {
    LowerConcat(pre + query, post);
    LowerConcat(pre, query);
    LowerCharacterised(pre);
    LowerCharacterised(post);
    assert Lower(pre + query + post) == pre + Lower(query) + post;
    TrimIgnoresPadding(pre, Lower(query), post);
  }

  /** Queries that differ only in letter case share a search key. */
  lemma {:induction false} SearchKeyIgnoresCase(q1: string, q2: string)
    requires Lower(q1) == Lower(q2)
    ensures SearchKey(q1) == SearchKey(q2)
  {
  }

  /** `" Love "`, `"love"` and `"LOVE"` share one search key. */
  lemma {:induction false} SearchKeyExamples()
    ensures SearchKey(" Love ") == SearchKey("love") == SearchKey("LOVE")
  {
    assert " Love " == " " + "Love" + " ";
    SearchKeyIgnoresPadding(" ", "Love", " ");
    SearchKeyIgnoresCase("Love", "love");
    SearchKeyIgnoresCase("LOVE", "love");
  }

  // ---------------------------------------------------------------------
  // Decimal text of an integer, as a template literal prints it

  predicate IsDigit(c: char) { '0' <= c <= '9' }

  /** The value of a digit character. */
  function DigitValue(c: char): int {
    c as int - '0' as int
  }

  function DigitChar(d: int): (c: char)
    requires 0 <= d < 10
    ensures IsDigit(c) && DigitValue(c) == d
  {
    ('0' as int + d) as char
  }

  /** The number a string of digits spells, most significant digit first. */
  function DecimalValue(s: string): int {
    if s == [] then 0 else 10 * DecimalValue(s[..|s| - 1]) + DigitValue(s[|s| - 1])
  }

  /** Decimal digits of `n`, most significant first, without leading zeros. */
  function NatToDecimal(n: nat): (r: string)
    ensures |r| >= 1 && (|r| == 1 <==> n < 10)
    ensures forall k :: 0 <= k < |r| ==> IsDigit(r[k])
    ensures |r| > 1 ==> r[0] != '0'
    ensures DecimalValue(r) == n
  {
    if n < 10 then
      assert [DigitChar(n)][..0] == [];
      [DigitChar(n)]
    else
      var p := NatToDecimal(n / 10);
      var r := p + [DigitChar(n % 10)];
      assert r[..|r| - 1] == p;
      r
  }

  /** Distinct numbers are printed differently: the text spells its number back. */
  lemma {:induction false} NatToDecimalInjective(a: nat, b: nat)
    requires NatToDecimal(a) == NatToDecimal(b)
    ensures a == b
  {
    assert a == DecimalValue(NatToDecimal(a)) == DecimalValue(NatToDecimal(b)) == b;
  }

  /** `${n}` for an integer `n`: a minus sign for negatives, then the digits. */
  function IntToDecimal(n: int): (r: string)
    ensures |r| >= 1
    ensures r[0] == '-' <==> n < 0
    ensures forall k :: 0 < k < |r| ==> IsDigit(r[k])
    ensures n >= 0 ==> DecimalValue(r) == n
    ensures n < 0 ==> DecimalValue(r[1..]) == -n
    ensures var digits := if n < 0 then r[1..] else r;
            && |digits| >= 1
            && (forall k :: 0 <= k < |digits| ==> IsDigit(digits[k]))
            && (|digits| > 1 ==> digits[0] != '0')
  {
    if n < 0 then
      var r := "-" + NatToDecimal(-n);
      assert r[1..] == NatToDecimal(-n);
      r
    else NatToDecimal(n)
  }

  /** Distinct integers are printed differently: the sign and the digits give the integer back. */
  lemma {:induction false} IntToDecimalInjective(a: int, b: int)
    requires IntToDecimal(a) == IntToDecimal(b)
    ensures a == b
  {
    var r := IntToDecimal(a);
    if a < 0 {
      assert -a == DecimalValue(r[1..]) == -b;
    } else {
      assert a == DecimalValue(r) == b;
    }
  }

  /** The text of an integer never contains the separator `_`. */
  lemma {:induction false} DecimalHasNoSeparator(n: int)
    ensures '_' !in IntToDecimal(n)
  {
    var r := IntToDecimal(n);
    forall k | 0 <= k < |r| ensures r[k] != '_' {
      if k > 0 {
        assert IsDigit(r[k]);
      }
    }
  }

  // ---------------------------------------------------------------------
  // Collection keys

  /** The collection key: the prefix, then the collection id and the count in decimal, joined by `_`. */
  function CollectionKey(collectionId: int, count: int): (r: string)
    ensures CollectionPrefix <= r
    ensures r[|CollectionPrefix|..] == IntToDecimal(collectionId) + "_" + IntToDecimal(count)
  {
    DropPrefix(CollectionPrefix, IntToDecimal(collectionId) + "_" + IntToDecimal(count));
    CollectionPrefix + (IntToDecimal(collectionId) + "_" + IntToDecimal(count))
  }

  /** Dropping a prefix gives back what was appended to it. */
  lemma {:induction false} DropPrefix(p: string, t: string)
    ensures (p + t)[|p|..] == t
  {
  }

  /** A separator that occurs in neither left part splits a joined string uniquely. */
  lemma {:induction false} SplitAtSeparator(x: string, y: string, u: string, v: string, sep: char)
    requires sep !in x && sep !in u
    requires x + [sep] + y == u + [sep] + v
    ensures x == u && y == v
  {
    var w := x + [sep] + y;
    assert w[|x|] == sep && forall i :: 0 <= i < |x| ==> w[i] == x[i];
    assert w[|u|] == sep && forall i :: 0 <= i < |u| ==> w[i] == u[i];
    assert |x| == |u|;
    assert x == w[..|x|] == u;
    assert y == w[|x| + 1..] == v;
  }

  /** The collection key determines the collection and the count it was built from. */
  lemma {:induction false} CollectionKeyInjective(a: int, b: int, c: int, d: int)
    requires CollectionKey(a, b) == CollectionKey(c, d)
    ensures a == c && b == d
  {
    var x, y, u, v := IntToDecimal(a), IntToDecimal(b), IntToDecimal(c), IntToDecimal(d);
    DropPrefix(CollectionPrefix, x + "_" + y);
    DropPrefix(CollectionPrefix, u + "_" + v);
    DecimalHasNoSeparator(a);
    DecimalHasNoSeparator(c);
    SplitAtSeparator(x, y, u, v, '_');
    IntToDecimalInjective(a, c);
    IntToDecimalInjective(b, d);
  }

  /** No collection key is a search key: the two prefixes differ in their first character. */
  lemma {:induction false} CollectionAndSearchKeysDisjoint(collectionId: int, count: int, query: string)
    ensures CollectionKey(collectionId, count) != SearchKey(query)
  {
    assert CollectionKey(collectionId, count)[0] == 'c';
    assert SearchKey(query)[0] == 's';
  }

  /** The text of the "For You" collection id. */
  lemma {:induction false} ForYouIdText()
    ensures IntToDecimal(6001) == "6001"
  {
    assert NatToDecimal(60) == "6" + "0";
    assert NatToDecimal(600) == "60" + "0";
    assert NatToDecimal(6001) == "600" + "1";
  }

  /** The text of the default count. */
  lemma {:induction false} DefaultCountText()
    ensures IntToDecimal(200) == "200"
  {
    assert NatToDecimal(20) == "2" + "0";
    assert NatToDecimal(200) == "20" + "0";
  }

  /** The key of the "For You" collection at the default count. */
  lemma {:induction false} CollectionKeyExample()
    ensures CollectionKey(6001, 200) == "collection_6001_200"
  {
    ForYouIdText();
    DefaultCountText();
  }
}
