/**
 * The JavaScript string methods the ledger screens rely on:
 * `toLowerCase`, `includes` and `split(c)[0]`.
 */
module Text {

  /** `toLowerCase` on one character; only the ASCII letters are mapped. */
  function LowerChar(c: char): char {
    if 'A' <= c <= 'Z' then (c as int - 'A' as int + 'a' as int) as char else c
  }

  /** `String.prototype.toLowerCase`, character by character. */
  function ToLower(s: string): (r: string)
    ensures |r| == |s|
    ensures forall i :: 0 <= i < |s| ==> r[i] == LowerChar(s[i])
  {
    if s == [] then [] else [LowerChar(s[0])] + ToLower(s[1..])
  }

  /** `needle` occurs in `hay` starting at index `i`. */
  ghost predicate OccursAt(needle: string, hay: string, i: int) {
    0 <= i && i + |needle| <= |hay| && hay[i..i + |needle|] == needle
  }

  /** `hay.includes(needle)`: compare at the front, then move one character on. */
  function Includes(hay: string, needle: string): (b: bool)
    ensures b ==> |needle| <= |hay|
    ensures needle == "" ==> b
    decreases |hay|
  {
    if |hay| < |needle| then false
    else if hay[..|needle|] == needle then true
    else Includes(hay[1..], needle)
  }

  /** An occurrence in the tail of a string is an occurrence one place later in the string. */
  lemma OccursInTail(needle: string, hay: string, j: int)
    requires |hay| > 0 && 0 <= j
    ensures OccursAt(needle, hay[1..], j) <==> OccursAt(needle, hay, j + 1)
  {
    if j + |needle| <= |hay| - 1 {
      assert hay[1..][j..j + |needle|] == hay[j + 1..j + 1 + |needle|];
    }
  }

  /** `Includes` holds exactly when the needle occurs somewhere in the haystack. */
  lemma {:induction false} IncludesIff(hay: string, needle: string)
    ensures Includes(hay, needle) <==> exists i :: OccursAt(needle, hay, i)
    decreases |hay|
  {
    var n := |needle|;
    if |hay| < n {
    } else if hay[..n] == needle {
      assert OccursAt(needle, hay, 0);
    } else {
      IncludesIff(hay[1..], needle);
      if Includes(hay[1..], needle) {
        var j :| OccursAt(needle, hay[1..], j);
        OccursInTail(needle, hay, j);
      } else {
        forall i | OccursAt(needle, hay, i) ensures false {
          if i > 0 {
            OccursInTail(needle, hay, i - 1);
          }
        }
      }
    }
  }

  /** A text that starts with `prefix` matches it case aside. */
  lemma IncludesLoweredPrefix(prefix: string, hay: string)
    requires |prefix| <= |hay| && hay[..|prefix|] == prefix
    ensures Includes(ToLower(hay), ToLower(prefix))
  {
    var lh, lp := ToLower(hay), ToLower(prefix);
    assert lh[..|lp|] == lp;
  }

  /** `s.split(c)[0]`: the text before the first `c`, or all of `s` when there is none. */
  function BeforeFirst(s: string, c: char): (r: string)
    ensures |r| <= |s| && r == s[..|r|]
    ensures c !in r
    ensures |r| < |s| ==> s[|r|] == c
  {
    if s == [] || s[0] == c then [] else [s[0]] + BeforeFirst(s[1..], c)
  }

  /** A string without `c` survives the split whole. */
  lemma BeforeFirstWithout(s: string, c: char)
    requires c !in s
    ensures BeforeFirst(s, c) == s
  {
  }

  /** Splitting a concatenation whose first part has no `c` keeps that part. */
  lemma {:induction false} BeforeFirstAppend(a: string, b: string, c: char)
    requires c !in a
    ensures BeforeFirst(a + b, c) == a + BeforeFirst(b, c)
  {
    if a == [] {
      assert a + b == b;
    } else {
      assert (a + b)[0] == a[0];
      assert (a + b)[1..] == a[1..] + b;
      BeforeFirstAppend(a[1..], b, c);
      assert a == [a[0]] + a[1..];
    }
  }
}
