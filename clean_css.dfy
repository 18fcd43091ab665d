/**
 * The build script that strips generated CSS rules with escaped class names: the text is cut
 * at every '}', the pieces holding a backslash are dropped, and the rest are glued back with
 * '}'. Only this text transformation is modelled.
 */
module CleanCss {

  const Backslash: char := '\\'

  predicate HasBackslash(s: string)
  {
    Backslash in s
  }

  /** `content.split('}')`: never empty, and no piece contains the separator. */
  function Split(s: string): (parts: seq<string>)
    ensures |parts| >= 1
    ensures forall i :: 0 <= i < |parts| ==> '}' !in parts[i]
    decreases |s|
  {
    if s == [] then [[]]
    else if s[0] == '}' then [[]] + Split(s[1..])
    else
      var rest := Split(s[1..]);
      [[s[0]] + rest[0]] + rest[1..]
  }

  /** `parts.join('}')` */
  function Join(parts: seq<string>): string
    decreases |parts|
  {
    if parts == [] then []
    else if |parts| == 1 then parts[0]
    else parts[0] + "}" + Join(parts[1..])
  }

  /** `parts.filter(line => !line.includes('\\'))` */
  function KeepClean(parts: seq<string>): (kept: seq<string>)
    ensures |kept| <= |parts|
    ensures forall i :: 0 <= i < |kept| ==> !HasBackslash(kept[i])
    decreases |parts|
  {
    if parts == [] then []
    else (if HasBackslash(parts[0]) then [] else [parts[0]]) + KeepClean(parts[1..])
  }

  /** The transformation `cleanCSSFile` applies to a file's contents. */
  function Clean(s: string): string
  {
    Join(KeepClean(Split(s)))
  }

  // ---- split and join ----

  /** Joining the pieces gives back the original text. */
  lemma {:induction false} JoinSplit(s: string)
    ensures Join(Split(s)) == s
    decreases |s|
  {
    if s != [] {
      JoinSplit(s[1..]);
      var rest := Split(s[1..]);
      if s[0] == '}' {
        assert s == "}" + s[1..];
      } else if |rest| == 1 {
        assert s == [s[0]] + s[1..];
      } else {
        assert Join(rest) == rest[0] + "}" + Join(rest[1..]);
        assert s == [s[0]] + s[1..];
      }
    }
  }

  lemma {:induction false} SplitConsPiece(c: char, s: string)
    requires c != '}'
    ensures Split([c] + s) == [[c] + Split(s)[0]] + Split(s)[1..]
  {
    assert ([c] + s)[1..] == s;
  }

  lemma {:induction false} SplitOfPieceThenRest(p: string, t: string)
    requires '}' !in p
    ensures Split(p + t) == [p + Split(t)[0]] + Split(t)[1..]
    decreases |p|
  {
    if p == [] {
      assert p + t == t;
      assert p + Split(t)[0] == Split(t)[0];
      assert Split(t) == [Split(t)[0]] + Split(t)[1..];
    } else {
      SplitOfPieceThenRest(p[1..], t);
      assert p + t == [p[0]] + (p[1..] + t);
      SplitConsPiece(p[0], p[1..] + t);
      assert [p[0]] + (p[1..] + Split(t)[0]) == p + Split(t)[0];
    }
  }

  /** Splitting glued pieces that contain no '}' gives back the pieces. */
  lemma {:induction false} SplitJoin(parts: seq<string>)
    requires |parts| >= 1
    requires forall i :: 0 <= i < |parts| ==> '}' !in parts[i]
    ensures Split(Join(parts)) == parts
    decreases |parts|
  {
    if |parts| == 1 {
      SplitOfPieceThenRest(parts[0], []);
      assert parts[0] + [] == parts[0];
    } else {
      var t := Join(parts[1..]);
      SplitJoin(parts[1..]);
      assert Split("}" + t) == [[]] + Split(t);
      SplitOfPieceThenRest(parts[0], "}" + t);
      assert Join(parts) == parts[0] + ("}" + t);
      assert parts[0] + [] == parts[0];
      assert parts == [parts[0]] + parts[1..];
    }
  }

  // ---- what cleaning keeps ----

  lemma {:induction false} JoinOfCleanPieces(parts: seq<string>)
    requires forall i :: 0 <= i < |parts| ==> !HasBackslash(parts[i])
    ensures !HasBackslash(Join(parts))
    decreases |parts|
  {
    if |parts| > 1 {
      JoinOfCleanPieces(parts[1..]);
    }
  }

  /** The output never contains a backslash. */
  lemma CleanHasNoBackslash(s: string)
    ensures !HasBackslash(Clean(s))
  {
    JoinOfCleanPieces(KeepClean(Split(s)));
  }

  lemma {:induction false} PiecesOfCleanText(s: string)
    requires !HasBackslash(s)
    ensures forall i :: 0 <= i < |Split(s)| ==> !HasBackslash(Split(s)[i])
    decreases |s|
  {
    if s != [] {
      assert s == [s[0]] + s[1..];
      PiecesOfCleanText(s[1..]);
    }
  }

  lemma {:induction false} KeepCleanOfCleanPieces(parts: seq<string>)
    requires forall i :: 0 <= i < |parts| ==> !HasBackslash(parts[i])
    ensures KeepClean(parts) == parts
    decreases |parts|
  {
    if parts != [] {
      KeepCleanOfCleanPieces(parts[1..]);
      assert parts == [parts[0]] + parts[1..];
    }
  }

  /** Text without a backslash passes through unchanged. */
  lemma CleanTextUnchanged(s: string)
    requires !HasBackslash(s)
    ensures Clean(s) == s
  {
    PiecesOfCleanText(s);
    KeepCleanOfCleanPieces(Split(s));
    JoinSplit(s);
  }

  /** Cleaning twice is cleaning once. */
  lemma CleanIdempotent(s: string)
    ensures Clean(Clean(s)) == Clean(s)
  {
    CleanHasNoBackslash(s);
    CleanTextUnchanged(Clean(s));
  }

  /** The kept pieces are the backslash-free pieces, in their original relative order. */
  lemma {:induction false} KeepCleanAppend(a: seq<string>, b: seq<string>)
    ensures KeepClean(a + b) == KeepClean(a) + KeepClean(b)
    decreases |a|
  {
    if a == [] {
      assert a + b == b;
    } else {
      assert (a + b)[1..] == a[1..] + b;
      KeepCleanAppend(a[1..], b);
    }
  }

  /** A piece is kept exactly when it is one of the pieces and holds no backslash. */
  lemma {:induction false} KeepCleanMembership(parts: seq<string>, p: string)
    ensures p in KeepClean(parts) <==> p in parts && !HasBackslash(p)
    decreases |parts|
  {
    if parts != [] {
      KeepCleanMembership(parts[1..], p);
      assert parts == [parts[0]] + parts[1..];
    }
  }

  lemma {:induction false} KeepCleanJoinShorter(parts: seq<string>)
    ensures |Join(KeepClean(parts))| <= |Join(parts)|
    decreases |parts|
  {
    if parts != [] {
      var rest := parts[1..];
      var kept := KeepClean(parts);
      KeepCleanJoinShorter(rest);
      if rest != [] {
        assert |Join(parts)| == |parts[0]| + 1 + |Join(rest)|;
        if !HasBackslash(parts[0]) && KeepClean(rest) != [] {
          assert kept == [parts[0]] + KeepClean(rest);
          assert kept[1..] == KeepClean(rest);
          assert |Join(kept)| == |parts[0]| + 1 + |Join(KeepClean(rest))|;
        } else if HasBackslash(parts[0]) {
          assert kept == KeepClean(rest);
        } else {
          assert kept == [parts[0]];
        }
      } else {
        assert kept == [] || kept == [parts[0]];
      }
    }
  }

  /** Cleaning never lengthens the text. */
  lemma CleanNotLonger(s: string)
    ensures |Clean(s)| <= |s|
  {
    KeepCleanJoinShorter(Split(s));
    JoinSplit(s);
  }
}
