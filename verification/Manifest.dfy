// Locked sources and the fixed-width identities inside them.
module Manifest {
  import opened Prelude
  import opened Bytes

  datatype Provider = Provider(name: Str, version: Str)

  datatype LockedSource =
    | Git(url: Str, commit: Str, requestedRef: Option<Str>, provider: Provider)
    | Archive(url: Str, sha256: Str, provider: Provider)
    | Path(path: Str)

  const TAG: Str := Ascii("sha256:")

  predicate IsLowerHex(s: Str) { forall i | 0 <= i < |s| :: 48 <= s[i] <= 57 || 97 <= s[i] <= 102 }

  // What `GitCommit` and `Sha256Digest` hold.
  predicate CommitOk(commit: Str) { (|commit| == 40 || |commit| == 64) && IsLowerHex(commit) }

  predicate DigestOk(digest: Str) { |digest| == 64 && IsLowerHex(digest) }

  predicate SourceTyped(source: LockedSource) {
    (source.Git? ==> CommitOk(source.commit)) && (source.Archive? ==> DigestOk(source.sha256))
  }

  // 64 hexadecimal digits of either case, alone or after one tag of either case.
  ghost predicate DigestText(value: Str, digits: Str) {
    |digits| == 64 && IsHex(digits) &&
    (value == digits || (|value| == |TAG| + 64 && Lower(value[..|TAG|]) == TAG && value[|TAG|..] == digits))
  }

  // `Sha256Digest::parse`: any case, with or without one tag.
  function ParseDigest(value: Str): (r: Option<Str>)
    ensures r.Some? ==> DigestOk(r.value)
    ensures forall digits :: DigestText(value, digits) ==> r == Some(Lower(digits))
    ensures r.Some? ==> exists digits :: DigestText(value, digits) && r.value == Lower(digits)
  {
    DigestParts(value);
    var lower := Lower(value);
    var hex := if TAG <= lower then lower[|TAG|..] else lower;
    if DigestOk(hex) then Some(hex) else None
  }

  // What the two forms come to in lower case.
  lemma DigestParts(value: Str)
    ensures forall digits :: DigestText(value, digits) ==>
      var lower := Lower(value);
      Lower(digits) == (if TAG <= lower then lower[|TAG|..] else lower) && DigestOk(Lower(digits))
    ensures var lower := Lower(value);
      var hex := if TAG <= lower then lower[|TAG|..] else lower;
      DigestOk(hex) ==> DigestText(value, value[|value| - |hex|..]) && hex == Lower(value[|value| - |hex|..])
  {
    var lower := Lower(value);
    assert TAG == [115, 104, 97, 50, 53, 54, 58];
    forall digits | DigestText(value, digits)
      ensures Lower(digits) == (if TAG <= lower then lower[|TAG|..] else lower) && DigestOk(Lower(digits))
    {
      if value == digits {
        assert lower[0] == LowerByte(value[0]) && lower[0] != TAG[0];
      } else {
        assert lower == Lower(value[..|TAG|]) + Lower(digits);
      }
    }
    if TAG <= lower {
      assert Lower(value[..|TAG|]) == lower[..|TAG|] && Lower(value[|TAG|..]) == lower[|TAG|..];
      LowerHexWas(value[|TAG|..]);
    } else {
      assert value[0..] == value;
      LowerHexWas(value);
    }
  }

  lemma LowerHexWas(s: Str)
    ensures IsLowerHex(Lower(s)) <==> IsHex(s)
  {
    forall i | 0 <= i < |s|
      ensures (48 <= Lower(s)[i] <= 57 || 97 <= Lower(s)[i] <= 102) <==>
          (48 <= s[i] <= 57 || 65 <= s[i] <= 70 || 97 <= s[i] <= 102)
    {
    }
    if IsLowerHex(Lower(s)) {
      forall i | 0 <= i < |s| ensures 48 <= s[i] <= 57 || 65 <= s[i] <= 70 || 97 <= s[i] <= 102 {
        assert 48 <= Lower(s)[i] <= 57 || 97 <= Lower(s)[i] <= 102;
      }
    }
  }

  function CanonicalIdentity(source: LockedSource): Str {
    match source
    case Git(url, commit, _, _) => Ascii("git:") + url + [64] + commit
    case Archive(url, sha256, _) => Ascii("archive:") + url + [35] + (TAG + sha256)
    case Path(path) => Ascii("local:") + path
  }

  // The parts of a source that its identity is about.
  predicate SameIdentity(a: LockedSource, b: LockedSource) {
    || (a.Git? && b.Git? && a.url == b.url && a.commit == b.commit)
    || (a.Archive? && b.Archive? && a.url == b.url && a.sha256 == b.sha256)
    || (a.Path? && b.Path? && a.path == b.path)
  }

  // Text before and after the last separator.
  lemma LastSplit(u: Str, c: Str, v: Str, d: Str, sep: byte)
    requires u + [sep] + c == v + [sep] + d && sep !in c && sep !in d
    ensures u == v && c == d
  {
    var w := u + [sep] + c;
    assert w[|u|] == sep && w[|v|] == sep;
    assert forall i | |u| < i < |w| :: w[i] == c[i - |u| - 1];
    assert forall i | |v| < i < |w| :: w[i] == d[i - |v| - 1];
    assert |u| == |v|;
    assert u == w[..|u|] && v == w[..|v|] && c == w[|u| + 1..] && d == w[|v| + 1..];
  }

  lemma KindsApart(a: LockedSource, b: LockedSource)
    requires CanonicalIdentity(a) == CanonicalIdentity(b)
    ensures a.Git? == b.Git? && a.Archive? == b.Archive?
  {
    assert Ascii("git:")[0] == 103 && Ascii("archive:")[0] == 97 && Ascii("local:")[0] == 108;
    assert CanonicalIdentity(a)[0] == CanonicalIdentity(b)[0];
  }

  // The identity text, whatever separators the URL holds, gives back kind, URL and digest.
  lemma CanonicalInjective(a: LockedSource, b: LockedSource)
    requires SourceTyped(a) && SourceTyped(b)
    ensures CanonicalIdentity(a) == CanonicalIdentity(b) <==> SameIdentity(a, b)
  {
    if CanonicalIdentity(a) == CanonicalIdentity(b) {
      KindsApart(a, b);
      hide Ascii, IsLowerHex;
      match a
      case Git(url, commit, _, _) =>
        HexHasNo(commit, 64);
        HexHasNo(b.commit, 64);
        LastSplit(Ascii("git:") + url, commit, Ascii("git:") + b.url, b.commit, 64);
        Unprefixed(Ascii("git:"), url, b.url);
      case Archive(url, sha256, _) =>
        TaggedHasNoHash(sha256);
        TaggedHasNoHash(b.sha256);
        LastSplit(Ascii("archive:") + url, TAG + sha256, Ascii("archive:") + b.url, TAG + b.sha256, 35);
        Unprefixed(Ascii("archive:"), url, b.url);
        Unprefixed(TAG, sha256, b.sha256);
      case Path(path) =>
        Unprefixed(Ascii("local:"), path, b.path);
    }
  }

  lemma Unprefixed(p: Str, x: Str, y: Str)
    ensures p + x == p + y ==> x == y
  {
    assert (p + x)[|p|..] == x && (p + y)[|p|..] == y;
  }

  lemma HexHasNo(hex: Str, sep: byte)
    requires IsLowerHex(hex) && !(48 <= sep <= 57) && !(97 <= sep <= 102)
    ensures sep !in hex
  {
  }

  lemma TaggedHasNoHash(hex: Str)
    requires IsLowerHex(hex)
    ensures 35 !in TAG + hex
  {
    assert TAG == [115, 104, 97, 50, 53, 54, 58];
  }
}
