/** The playlist-URL gate of the converter: `re.match` of the pattern
    `^https://open\.spotify\.com/playlist/[a-zA-Z0-9]{22}$` against the
    command-line argument.

    The pattern is modelled as a sequence of atoms and matched by a small
    matcher with Python's semantics for `^` and `$` (no MULTILINE flag):
    `$` succeeds at the end of the string and also just before a single
    newline that ends the string. The model therefore accepts a playlist
    URL followed by one `\n`, as the program does. */
module PlaylistUrl {

  /** The fixed text every accepted URL starts with. */
  const Prefix: string := "https://open.spotify.com/playlist/"

  /** Number of characters in a playlist identifier. */
  const IdLength: nat := 22

  /** Membership in the character class `[a-zA-Z0-9]`. */
  predicate IsAlnum(c: char) {
    ('a' <= c <= 'z') || ('A' <= c <= 'Z') || ('0' <= c <= '9')
  }

  predicate AllAlnum(s: string) {
    forall i :: 0 <= i < |s| ==> IsAlnum(s[i])
  }

  /** A well-formed playlist identifier. */
  predicate IsPlaylistId(id: string) {
    |id| == IdLength && AllAlnum(id)
  }

  /** One element of a regular expression without alternation:
      `^`, a literal character, the class `[a-zA-Z0-9]`, or `$`. */
  datatype Atom = Begin | Lit(c: char) | AlnumClass | End

  /** The atoms matching the literal text `w` (an escaped `\.` is a literal dot). */
  function Literal(w: string): (p: seq<Atom>)
    ensures |p| == |w|
  {
    seq(|w|, i requires 0 <= i < |w| => Lit(w[i]))
  }

  /** `n` copies of the class `[a-zA-Z0-9]`, i.e. `[a-zA-Z0-9]{n}`. */
  function Repeat(n: nat): (p: seq<Atom>)
    ensures |p| == n
  {
    seq(n, _ => AlnumClass)
  }

  /** `^w[a-zA-Z0-9]{n}$`, atom by atom; the validator's pattern is
      `Shape(Prefix, IdLength)`. */
  function Shape(w: string, n: nat): seq<Atom> {
    [Begin] + (Literal(w) + (Repeat(n) + [End]))
  }

  /** `u` is `w` followed by exactly `n` characters of `[a-zA-Z0-9]`. */
  ghost predicate CanonicalShape(w: string, n: nat, u: string) {
    |u| == |w| + n && u[..|w|] == w && AllAlnum(u[|w|..])
  }

  /** Number of characters a pattern consumes: one per literal or class atom. */
  function Width(p: seq<Atom>): nat {
    if |p| == 0 then 0
    else (if p[0].Lit? || p[0].AlnumClass? then 1 else 0) + Width(p[1..])
  }

  /** Does pattern `p` match `s` starting at position `i`? The match need
      not reach the end of `s`: as with `re.match`, only an explicit `$`
      anchors the end. `^` holds only at position 0, `$` at the end or
      just before a final newline. */
  function MatchAt(p: seq<Atom>, s: string, i: nat): (r: bool)
    requires i <= |s|
    ensures r ==> i + Width(p) <= |s|
    ensures Begin in p && i > 0 ==> !r
    decreases |p|
  {
    if |p| == 0 then true
    else match p[0]
      case Begin => i == 0 && MatchAt(p[1..], s, i)
      case Lit(c) => i < |s| && s[i] == c && MatchAt(p[1..], s, i + 1)
      case AlnumClass => i < |s| && IsAlnum(s[i]) && MatchAt(p[1..], s, i + 1)
      case End => (i == |s| || (i == |s| - 1 && s[i] == '\n')) && MatchAt(p[1..], s, i)
  }

  /** `is_valid_spotify_url`: `re.match` anchors the attempt at position 0.
      It accepts exactly the canonical URLs and the canonical URLs followed
      by one newline. */
  function IsValidSpotifyUrl(url: string): (v: bool)
    ensures v <==> Accepted(url)
  {
    MatchShape(Prefix, IdLength, url);
    MatchAt(Shape(Prefix, IdLength), url, 0)
  }

  /** The canonical form: the prefix followed by exactly one playlist id. */
  ghost predicate Canonical(u: string) {
    CanonicalShape(Prefix, IdLength, u)
  }

  /** What the validator accepts: the canonical form, optionally followed by
      one newline. */
  ghost predicate Accepted(u: string) {
    Canonical(u) || (|u| > 0 && u[|u| - 1] == '\n' && Canonical(u[..|u| - 1]))
  }

  lemma {:induction false} MatchLiteral(w: string, rest: seq<Atom>, s: string, i: nat)
    requires i <= |s|
    ensures MatchAt(Literal(w) + rest, s, i) <==>
              i + |w| <= |s| && s[i..i + |w|] == w && MatchAt(rest, s, i + |w|)
    decreases |w|
  {
    if |w| == 0 {
      assert Literal(w) + rest == rest;
      assert s[i..i] == w;
    } else {
      var p := Literal(w) + rest;
      assert p[0] == Lit(w[0]);
      assert p[1..] == Literal(w[1..]) + rest;
      if i < |s| && s[i] == w[0] {
        MatchLiteral(w[1..], rest, s, i + 1);
        if i + |w| <= |s| {
          assert s[i..i + |w|] == [s[i]] + s[i + 1..i + 1 + |w[1..]|];
          assert w == [w[0]] + w[1..];
        }
      } else if i + |w| <= |s| {
        assert s[i..i + |w|][0] == s[i];
      }
    }
  }

  lemma {:induction false} MatchRepeat(n: nat, rest: seq<Atom>, s: string, i: nat)
    requires i <= |s|
    ensures MatchAt(Repeat(n) + rest, s, i) <==>
              i + n <= |s| && AllAlnum(s[i..i + n]) && MatchAt(rest, s, i + n)
    decreases n
  {
    if n == 0 {
      assert Repeat(n) + rest == rest;
    } else {
      var p := Repeat(n) + rest;
      assert p[0] == AlnumClass;
      assert p[1..] == Repeat(n - 1) + rest;
      if i < |s| && IsAlnum(s[i]) {
        MatchRepeat(n - 1, rest, s, i + 1);
        if i + n <= |s| {
          assert s[i..i + n] == [s[i]] + s[i + 1..i + 1 + (n - 1)];
        }
      } else if i + n <= |s| {
        assert s[i..i + n][0] == s[i];
      }
    }
  }

  /** The matcher on `^w[a-zA-Z0-9]{n}$` accepts `w` plus `n` class
      characters, with or without one final newline, and nothing else. */
  lemma {:induction false} MatchShape(w: string, n: nat, u: string)
    ensures MatchAt(Shape(w, n), u, 0) <==>
              CanonicalShape(w, n, u) ||
              (|u| > 0 && u[|u| - 1] == '\n' && CanonicalShape(w, n, u[..|u| - 1]))
  {
    var tail := Repeat(n) + [End];
    var L := |w|;
    assert Shape(w, n)[1..] == Literal(w) + tail;
    MatchLiteral(w, tail, u, 0);
    if L <= |u| {
      assert u[0..L] == u[..L];
      MatchRepeat(n, [End], u, L);
      if L + n <= |u| {
        var j := L + n;
        assert [End][1..] == [];
        if j == |u| - 1 {
          var v := u[..|u| - 1];
          assert v[..L] == u[..L];
          assert v[L..] == u[L..j];
        }
        if j == |u| {
          assert u[L..] == u[L..j];
        }
      }
    }
    if |u| > 0 && u[|u| - 1] == '\n' && CanonicalShape(w, n, u[..|u| - 1]) {
      var v := u[..|u| - 1];
      assert v[..L] == u[..L];
      assert v[L..] == u[L..|v|];
    }
  }

  /** Every playlist id yields an accepted URL, with or without the
      trailing newline that Python's `$` lets through. */
  lemma AcceptsEveryId(id: string)
    requires IsPlaylistId(id)
    ensures IsValidSpotifyUrl(Prefix + id)
    ensures IsValidSpotifyUrl(Prefix + id + "\n")
  {
    var u := Prefix + id;
    assert u[..|Prefix|] == Prefix && u[|Prefix|..] == id;
    var w := u + "\n";
    assert w[..|w| - 1] == u;
  }

  /** A string whose length is neither that of a canonical URL nor one more
      is rejected, and so is a string of the longer length that does not end
      in a newline. */
  lemma RejectsWrongLength(u: string)
    requires |u| != |Prefix| + IdLength
    requires |u| != |Prefix| + IdLength + 1 || u[|u| - 1] != '\n'
    ensures !IsValidSpotifyUrl(u)
  {
  }

  /** A character outside `[a-zA-Z0-9]` in the identifier part rejects the URL. */
  lemma RejectsNonAlnumId(u: string, k: nat)
    requires |Prefix| <= k < |Prefix| + IdLength && k < |u|
    requires !IsAlnum(u[k])
    ensures !IsValidSpotifyUrl(u)
  {
  }

  /** A string that does not start with the prefix is rejected. */
  lemma RejectsOtherPrefix(u: string)
    requires |u| < |Prefix| || u[..|Prefix|] != Prefix
    ensures !IsValidSpotifyUrl(u)
  {
    if |u| > 0 && |u| >= |Prefix| {
      var v := u[..|u| - 1];
      if |v| >= |Prefix| {
        assert v[..|Prefix|] == u[..|Prefix|];
      }
    }
  }
}
