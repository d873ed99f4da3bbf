/** Python's `os.path.splitext` on POSIX paths (`genericpath._splitext` with
    separator '/' and extension separator '.'). */
module PosixPath {

  /** `s.rfind(c)`: the index of the last `c` in `s`, or -1. */
  function RFind(s: string, c: char): (i: int)
    ensures -1 <= i < |s|
    ensures i >= 0 ==> s[i] == c
    ensures forall j :: i < j < |s| ==> s[j] != c
  {
    if |s| == 0 then -1
    else if s[|s| - 1] == c then |s| - 1
    else RFind(s[..|s| - 1], c)
  }

  predicate AllDots(s: string)
  {
    forall k :: 0 <= k < |s| ==> s[k] == '.'
  }

  /** The final path component of `root` (after its last '/') has a character
      other than '.', so that a following ".ext" is an extension and not part of
      a hidden file's name. */
  predicate HasStem(root: string)
  {
    !AllDots(root[RFind(root, '/') + 1..])
  }

  /** What splitext can return as an extension: a '.' followed by characters
      that are neither '.' nor '/'. */
  predicate IsExtension(e: string)
  {
    |e| >= 1 && e[0] == '.' && '.' !in e[1..] && '/' !in e
  }

  /** `os.path.splitext(p)`: the extension runs from the last '.' of the final
      path component, unless everything before that '.' in the component is dots. */
  function SplitExt(p: string): (r: (string, string))
    ensures r.0 + r.1 == p
    ensures r.1 == "" || (IsExtension(r.1) && HasStem(r.0))
  {
    var sepIndex := RFind(p, '/');
    var dotIndex := RFind(p, '.');
    if dotIndex > sepIndex && !AllDots(p[sepIndex + 1..dotIndex]) then
      SplitAtLastDot(p, sepIndex, dotIndex);
      (p[..dotIndex], p[dotIndex..])
    else
      assert p + "" == p;
      (p, "")
  }

  lemma SplitAtLastDot(p: string, sepIndex: int, dotIndex: int)
    requires sepIndex == RFind(p, '/') && dotIndex == RFind(p, '.')
    requires dotIndex > sepIndex && !AllDots(p[sepIndex + 1..dotIndex])
    ensures p[..dotIndex] + p[dotIndex..] == p
    ensures IsExtension(p[dotIndex..]) && HasStem(p[..dotIndex])
  {
    var root, e := p[..dotIndex], p[dotIndex..];
    NoDotAfterLast(p, dotIndex);
    NoSlashAfterLast(p, sepIndex, dotIndex);
    assert e[1..] == p[dotIndex + 1..];
    assert IsExtension(e);
    assert root + e == p;
    RFindAppend(root, e, '/');
    assert RFind(root, '/') == sepIndex;
    assert root[sepIndex + 1..] == p[sepIndex + 1..dotIndex];
  }

  /** Nothing after the last '.' is a '.'. */
  lemma NoDotAfterLast(p: string, dotIndex: int)
    requires 0 <= dotIndex == RFind(p, '.')
    ensures '.' !in p[dotIndex + 1..]
  {
    var t := p[dotIndex + 1..];
    forall k | 0 <= k < |t| ensures t[k] != '.' {
      assert t[k] == p[dotIndex + 1 + k];
    }
  }

  /** Nothing from a position after the last '/' on is a '/'. */
  lemma NoSlashAfterLast(p: string, sepIndex: int, dotIndex: int)
    requires sepIndex == RFind(p, '/') && sepIndex < dotIndex < |p|
    ensures '/' !in p[dotIndex..]
  {
    var t := p[dotIndex..];
    forall k | 0 <= k < |t| ensures t[k] != '/' {
      assert t[k] == p[dotIndex + k];
    }
  }

  /** The contract of RFind determines its value. */
  lemma RFindIs(s: string, c: char, i: int)
    requires 0 <= i < |s| && s[i] == c
    requires forall j :: i < j < |s| ==> s[j] != c
    ensures RFind(s, c) == i
  {
  }

  function Extension(p: string): string
  {
    SplitExt(p).1
  }

  /** Where the last `c` of a concatenation lies. */
  lemma {:induction false} RFindAppend(a: string, b: string, c: char)
    ensures RFind(a + b, c) == if c in b then |a| + RFind(b, c) else RFind(a, c)
  {
    if |b| == 0 {
      assert a + b == a;
    } else {
      var ab := a + b;
      assert ab[..|ab| - 1] == a + b[..|b| - 1];
      if b[|b| - 1] != c {
        RFindAppend(a, b[..|b| - 1], c);
        assert c in b <==> c in b[..|b| - 1] by {
          assert b == b[..|b| - 1] + [b[|b| - 1]];
        }
      }
    }
  }

  /** Appending a well-formed extension to a root: splitext finds it exactly when
      the root's final component has a stem. */
  lemma ExtensionOfSuffix(root: string, e: string)
    requires IsExtension(e)
    ensures SplitExt(root + e) == if HasStem(root) then (root, e) else (root + e, "")
  {
    var p := root + e;
    LastDotAtSuffix(root, e);
    var sepIndex := RFind(root, '/');
    assert p[sepIndex + 1..|root|] == root[sepIndex + 1..];
    assert p[..|root|] == root && p[|root|..] == e;
  }

  /** In `root + e`, the last '.' is the one that starts `e`, and the last '/'
      is the last '/' of `root`. */
  lemma LastDotAtSuffix(root: string, e: string)
    requires IsExtension(e)
    ensures RFind(root + e, '.') == |root|
    ensures RFind(root + e, '/') == RFind(root, '/')
  {
    RFindAppend(root, e, '.');
    RFindAppend(root, e, '/');
    assert RFind(e, '.') == 0 by {
      assert e == [e[0]] + e[1..];
      RFindAppend([e[0]], e[1..], '.');
      assert [e[0]][..0] == "";
    }
  }

  /** A well-formed extension `e` is the extension of `p` exactly when `p` ends
      in `e` and what comes before has a stem. */
  lemma ExtensionCharacterised(p: string, e: string)
    requires IsExtension(e)
    ensures Extension(p) == e <==> |p| >= |e| && p[|p| - |e|..] == e && HasStem(p[..|p| - |e|])
  {
    if |p| >= |e| && p[|p| - |e|..] == e {
      var root := p[..|p| - |e|];
      assert p == root + e;
      ExtensionOfSuffix(root, e);
    }
    if Extension(p) == e {
      var r := SplitExt(p);
      assert p == r.0 + e;
      assert p[..|p| - |e|] == r.0;
    }
  }

  /** A name without any '.' has no extension. */
  lemma NoDotNoExtension(p: string)
    requires '.' !in p
    ensures Extension(p) == ""
  {
    assert RFind(p, '.') == -1;
  }

  lemma TestHasStem()
    ensures HasStem("test")
  {
    assert '/' !in "test";
    assert RFind("test", '/') == -1;
  }

  /** A well-formed extension after the stem "test" is found as such. */
  lemma ExtensionAfterTest(e: string)
    requires IsExtension(e)
    ensures Extension("test" + e) == e
  {
    TestHasStem();
    ExtensionOfSuffix("test", e);
  }

  lemma DocAndXmlAreExtensions()
    ensures IsExtension(".doc") && IsExtension(".xml")
  {
    assert ".doc"[1..] == "doc";
    assert ".xml"[1..] == "xml";
  }

  /** A hidden file name is all stem: ".xml" has no extension. */
  lemma ExtensionOfDotXml()
    ensures Extension(".xml") == ""
  {
    RFindIs(".xml", '.', 0);
    assert '/' !in ".xml";
    assert RFind(".xml", '/') == -1;
    assert AllDots(".xml"[0..0]);
  }

  /** How splitext treats the names saved under in the save view's tests
      ("test", "test.doc" and "test.xml"), and a hidden file ".xml", which its
      rule leaves without an extension. */
  lemma ExtensionExamples()
    ensures Extension("test") == ""
    ensures Extension("test" + ".doc") == ".doc"
    ensures Extension("test" + ".xml") == ".xml"
    ensures Extension(".xml") == ""
  {
    NoDotNoExtension("test");
    DocAndXmlAreExtensions();
    ExtensionAfterTest(".doc");
    ExtensionAfterTest(".xml");
    ExtensionOfDotXml();
  }
}
