/**
  Server versions as `distutils.version.LooseVersion` sees a dotted numeric
  version string: the list of its numeric components, compared the way Python
  compares lists.
 */
module LooseVersion {
  import opened Wrappers
  import opened Decimal

  /** The components of a version: "2.0.0" is [2, 0, 0], "2.0" is [2, 0]. */
  type Version = seq<nat>

  /**
    `a` and `b` agree on their first `i` components, and at position `i`
    either `a` has ended while `b` goes on, or both go on and `a`'s component
    is the smaller.
   */
  predicate FirstDifference(a: Version, b: Version, i: nat) {
    i <= |a| && i <= |b| && a[..i] == b[..i] &&
    ((i == |a| && i < |b|) || (i < |a| && i < |b| && a[i] < b[i]))
  }

  /** Where the first difference of two versions lies, by their first components. */
  lemma FirstDifferenceCases(a: Version, b: Version)
    ensures |a| == 0 ==> ((exists i: nat :: FirstDifference(a, b, i)) <==> |b| > 0)
    ensures |a| > 0 && |b| == 0 ==> !exists i: nat :: FirstDifference(a, b, i)
    ensures |a| > 0 && |b| > 0 ==>
      ((exists i: nat :: FirstDifference(a, b, i)) <==>
       a[0] < b[0] || (a[0] == b[0] && exists i: nat :: FirstDifference(a[1..], b[1..], i)))
  {
    if |a| == 0 && |b| > 0 {
      assert FirstDifference(a, b, 0);
    }
    if |a| > 0 && |b| > 0 {
      if a[0] < b[0] {
        assert FirstDifference(a, b, 0);
      }
      if a[0] == b[0] && exists i: nat :: FirstDifference(a[1..], b[1..], i) {
        var i: nat :| FirstDifference(a[1..], b[1..], i);
        assert a[..i + 1] == [a[0]] + a[1..][..i];
        assert b[..i + 1] == [b[0]] + b[1..][..i];
        assert FirstDifference(a, b, i + 1);
      }
      if exists i: nat :: FirstDifference(a, b, i) {
        var i: nat :| FirstDifference(a, b, i);
        if i > 0 {
          assert a[0] == a[..i][0] == b[..i][0] == b[0];
          assert a[1..][..i - 1] == a[..i][1..];
          assert b[1..][..i - 1] == b[..i][1..];
          assert FirstDifference(a[1..], b[1..], i - 1);
        }
      }
    }
  }

  /**
    Python list order: the first differing component decides; when one list
    is a prefix of the other, the shorter one is smaller. No zero padding.
   */
  predicate Less(a: Version, b: Version)
    ensures Less(a, b) <==> exists i: nat :: FirstDifference(a, b, i)
    decreases |a|
  {
    FirstDifferenceCases(a, b);
    if |a| == 0 then |b| > 0
    else if |b| == 0 then false
    else a[0] < b[0] || (a[0] == b[0] && Less(a[1..], b[1..]))
  }

  lemma {:induction false} LessIrreflexive(a: Version)
    ensures !Less(a, a)
    decreases |a|
  {
    if |a| > 0 {
      LessIrreflexive(a[1..]);
    }
  }

  lemma {:induction false} LessTransitive(a: Version, b: Version, c: Version)
    requires Less(a, b) && Less(b, c)
    ensures Less(a, c)
    decreases |a|
  {
    if |a| > 0 && a[0] == b[0] && b[0] == c[0] {
      LessTransitive(a[1..], b[1..], c[1..]);
    }
  }

  /** Any two distinct versions are ordered one way and not the other. */
  lemma {:induction false} LessTotal(a: Version, b: Version)
    ensures a == b || Less(a, b) || Less(b, a)
    ensures !(Less(a, b) && Less(b, a))
    decreases |a|
  {
    if |a| > 0 && |b| > 0 && a[0] == b[0] {
      LessTotal(a[1..], b[1..]);
      if a[1..] == b[1..] {
        assert a == [a[0]] + a[1..] && b == [b[0]] + b[1..];
      }
    }
  }

  /** A proper prefix is smaller: "2.0" < "2.0.0". */
  lemma {:induction false} ProperPrefixIsLess(a: Version, b: Version)
    requires |a| < |b| && a == b[..|a|]
    ensures Less(a, b)
    decreases |a|
  {
    if |a| > 0 {
      assert a[1..] == b[1..][..|a| - 1];
      ProperPrefixIsLess(a[1..], b[1..]);
    }
  }

  /**
    Below the release `major.0.0` are exactly the versions whose first
    component is smaller, and the proper prefixes of `major.0.0` itself.
   */
  lemma BelowRelease(v: Version, major: nat)
    ensures Less(v, [major, 0, 0]) <==>
      |v| == 0 || v[0] < major || v == [major] || v == [major, 0]
  {
    var r: Version := [major, 0, 0];
    if |v| > 0 && v[0] == major {
      assert r[1..] == [0, 0] && r[1..][1..] == [0];
      if |v| > 1 && v[1] == 0 {
        if |v| > 2 {
          assert v[1..][1..] == v[2..];
          assert !Less(v[2..], [0]);
          assert v != [major] && v != [major, 0];
        } else {
          assert v == [major, 0];
        }
      } else if |v| > 1 {
        assert v != [major] && v != [major, 0];
      } else {
        assert v == [major];
      }
    }
  }

  predicate VersionChars(s: string) {
    forall i :: 0 <= i < |s| ==> IsDigit(s[i]) || s[i] == '.'
  }

  /** The pieces of `s` between dots (Python's `s.split('.')`). */
  function Split(s: string): (pieces: seq<string>)
    requires VersionChars(s)
    ensures |pieces| >= 1
    ensures forall i :: 0 <= i < |pieces| ==> AllDigits(pieces[i])
    decreases |s|
  {
    if |s| == 0 then [""]
    else
      var rest := Split(s[1..]);
      if s[0] == '.' then [""] + rest else [[s[0]] + rest[0]] + rest[1..]
  }

  /** The numeric value of every non-empty piece, in order. */
  function Components(pieces: seq<string>): Version
    requires forall i :: 0 <= i < |pieces| ==> AllDigits(pieces[i])
  {
    if |pieces| == 0 then []
    else (if pieces[0] == "" then [] else [ValueOf(pieces[0])]) + Components(pieces[1..])
  }

  /**
    `LooseVersion(s).version` for a string of digits and dots: the digit runs
    as integers, empty pieces dropped. The empty string is never parsed
    (`LooseVersion("")` has no version, so comparing it raises), and strings
    with other characters are outside the model: both give `None`.
   */
  function ParseVersion(s: string): (r: Option<Version>)
    ensures r.Some? <==> |s| > 0 && VersionChars(s)
  {
    if |s| > 0 && VersionChars(s) then Some(Components(Split(s))) else None
  }

  /** The canonical text of a version, components joined by dots. */
  function FormatVersion(v: Version): (s: string)
    ensures VersionChars(s)
  {
    if |v| == 0 then ""
    else if |v| == 1 then NatToString(v[0])
    else NatToString(v[0]) + "." + FormatVersion(v[1..])
  }

  lemma {:induction false} SplitDigits(d: string)
    requires AllDigits(d)
    ensures Split(d) == [d]
    decreases |d|
  {
    if |d| > 0 {
      SplitDigits(d[1..]);
      assert [d[0]] + d[1..] == d;
    }
  }

  lemma {:induction false} SplitDigitsDot(d: string, rest: string)
    requires AllDigits(d) && VersionChars(rest)
    ensures VersionChars(d + "." + rest)
    ensures Split(d + "." + rest) == [d] + Split(rest)
    decreases |d|
  {
    var s := d + "." + rest;
    if |d| == 0 {
      assert s[1..] == rest;
    } else {
      assert s[1..] == d[1..] + "." + rest;
      SplitDigitsDot(d[1..], rest);
      assert [d[0]] + d[1..] == d;
    }
  }

  lemma {:induction false} ComponentsOfFormat(v: Version)
    requires |v| > 0
    ensures Components(Split(FormatVersion(v))) == v
    decreases |v|
  {
    var head := NatToString(v[0]);
    ValueOfNatToString(v[0]);
    if |v| == 1 {
      SplitDigits(head);
      assert Components([head]) == [v[0]] + Components([]);
    } else {
      var rest := FormatVersion(v[1..]);
      SplitDigitsDot(head, rest);
      var pieces := [head] + Split(rest);
      assert pieces[1..] == Split(rest);
      ComponentsOfFormat(v[1..]);
      assert Components(pieces) == [v[0]] + v[1..];
    }
  }

  /** Parsing the canonical text of a non-empty version gives the version back. */
  lemma ParseFormatVersion(v: Version)
    requires |v| > 0
    ensures ParseVersion(FormatVersion(v)) == Some(v)
  {
    ComponentsOfFormat(v);
  }

  /** "2.0" is [2, 0], which is below 2.0.0: it is not padded with zeros. */
  lemma TwoPointZeroBelowTwoPointZeroPointZero()
    ensures ParseVersion("2.0") == Some([2, 0])
    ensures Less([2, 0], [2, 0, 0])
  {
    ParseFormatVersion([2, 0]);
    assert FormatVersion([2, 0]) == "2.0";
    BelowRelease([2, 0], 2);
  }
}
