/**
  The layout elements ("flowables") a catalog story is made of, and two views of
  a story used to state its properties: how many explicit page breaks it holds,
  and what is left once those breaks are taken out.
 */
module Flowables {

  /** The paragraph styles of the sample style sheet the catalog uses. */
  datatype Style = Normal | Heading1 | Heading2 | Small

  /** A paragraph, a vertical gap (in hundredths of an inch) or a forced page break. */
  datatype Flowable = Para(text: string, style: Style) | Spacer(height: nat) | PageBreak

  /** Number of explicit page breaks in a story. */
  function CountBreaks(s: seq<Flowable>): (n: nat)
    ensures n <= |s|
    ensures n == 0 <==> PageBreak !in s
  {
    if s == [] then 0
    else (if s[0] == PageBreak then 1 else 0) + CountBreaks(s[1..])
  }

  /** The story with every explicit page break removed, everything else in order. */
  function WithoutBreaks(s: seq<Flowable>): (r: seq<Flowable>)
    ensures PageBreak !in r
    ensures |r| == |s| - CountBreaks(s)
  {
    if s == [] then []
    else (if s[0] == PageBreak then [] else [s[0]]) + WithoutBreaks(s[1..])
  }

  lemma {:induction false} CountBreaksAppend(a: seq<Flowable>, b: seq<Flowable>)
    ensures CountBreaks(a + b) == CountBreaks(a) + CountBreaks(b)
  {
    if a == [] {
      assert a + b == b;
    } else {
      assert (a + b)[1..] == a[1..] + b;
      CountBreaksAppend(a[1..], b);
    }
  }

  lemma {:induction false} WithoutBreaksAppend(a: seq<Flowable>, b: seq<Flowable>)
    ensures WithoutBreaks(a + b) == WithoutBreaks(a) + WithoutBreaks(b)
  {
    if a == [] {
      assert a + b == b;
    } else {
      assert (a + b)[1..] == a[1..] + b;
      WithoutBreaksAppend(a[1..], b);
    }
  }

  /** Removing breaks from a break-free sequence changes nothing. */
  lemma {:induction false} WithoutBreaksNoBreaks(s: seq<Flowable>)
    requires PageBreak !in s
    ensures WithoutBreaks(s) == s
  {
    if s != [] {
      assert s[0] in s;
      assert PageBreak !in s[1..] by {
        forall i | 0 <= i < |s[1..]| ensures s[1..][i] != PageBreak {
          assert s[1..][i] == s[i + 1];
        }
      }
      WithoutBreaksNoBreaks(s[1..]);
      assert [s[0]] + s[1..] == s;
    }
  }
}
