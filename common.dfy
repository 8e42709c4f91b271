/** Values shared by every part of the scraper model: Java's `Optional` and
    nullable references, exceptions as results, and the two `String` methods
    the core relies on (`trim` and `startsWith`). */
module Common {

  /** `java.util.Optional<T>`; also a Java reference that may be null
      (`None` stands for `null`). */
  datatype Option<+T> = None | Some(value: T) {
    /** `Optional.orElse` */
    function GetOr(default: T): T {
      match this
      case Some(v) => v
      case None => default
    }
  }

  /** How a `CompletableFuture` ended: with a value (`None` for `null`), or
      exceptionally, `join` then throwing a `CompletionException` with this cause. */
  datatype Future<+T, +E> = Completed(value: Option<T>) | Failed(cause: E)

  /** A Java `String` field or variable, which may hold `null`. */
  type NString = Option<string>

  /** A value, or the exception that was thrown instead of producing it. */
  datatype Result<+T, +E> = Ok(value: T) | Err(error: E)

  /** Characters that `String.trim()` removes at either end: code point at most U+0020. */
  predicate IsTrimmable(c: char) {
    c <= ' '
  }

  /** `s` with its leading trimmable characters removed. */
  function TrimStart(s: string): string {
    if s != [] && IsTrimmable(s[0]) then TrimStart(s[1..]) else s
  }

  /** `s` with its trailing trimmable characters removed. */
  function TrimEnd(s: string): string {
    if s != [] && IsTrimmable(s[|s| - 1]) then TrimEnd(s[..|s| - 1]) else s
  }

  /** `String.trim()` */
  function Trim(s: string): string {
    TrimEnd(TrimStart(s))
  }

  /** What `TrimStart` removes is a prefix of trimmable characters, and what
      it keeps does not start with one. */
  lemma {:induction false} TrimStartFacts(s: string)
    ensures var r := TrimStart(s);
      && |r| <= |s| && r == s[|s| - |r|..]
      && (r == [] || !IsTrimmable(r[0]))
      && forall i :: 0 <= i < |s| - |r| ==> IsTrimmable(s[i])
  {
    if s != [] && IsTrimmable(s[0]) {
      TrimStartFacts(s[1..]);
      var r := TrimStart(s);
      assert s[1..][|s| - 1 - |r|..] == s[|s| - |r|..];
      forall i | 0 <= i < |s| - |r|
        ensures IsTrimmable(s[i])
      {
        if i > 0 {
          assert s[i] == s[1..][i - 1];
        }
      }
    }
  }

  /** What `TrimEnd` removes is a suffix of trimmable characters, and what
      it keeps does not end with one. */
  lemma {:induction false} TrimEndFacts(s: string)
    ensures var r := TrimEnd(s);
      && |r| <= |s| && r == s[..|r|]
      && (r == [] || !IsTrimmable(r[|r| - 1]))
      && forall i :: |r| <= i < |s| ==> IsTrimmable(s[i])
  {
    if s != [] && IsTrimmable(s[|s| - 1]) {
      TrimEndFacts(s[..|s| - 1]);
      var r := TrimEnd(s);
      assert s[..|s| - 1][..|r|] == s[..|r|];
      forall i | |r| <= i < |s|
        ensures IsTrimmable(s[i])
      {
        if i < |s| - 1 {
          assert s[i] == s[..|s| - 1][i];
        }
      }
    }
  }

  /** A trimmed string is empty exactly when every character was trimmable. */
  lemma TrimEmptyIffAllTrimmable(s: string)
    ensures Trim(s) == [] <==> forall i :: 0 <= i < |s| ==> IsTrimmable(s[i])
  {
    TrimStartFacts(s);
    var t := TrimStart(s);
    TrimEndFacts(t);
    if t != [] {
      assert t[0] == s[|s| - |t|];
    }
  }

  /** The test the source writes as `s == null || s.trim().isEmpty()`. */
  predicate IsBlank(s: NString) {
    s.None? || Trim(s.value) == []
  }

  /** `String.startsWith` */
  predicate StartsWith(s: string, prefix: string) {
    |prefix| <= |s| && s[..|prefix|] == prefix
  }

  /** The set a `HashSet` holds after the elements of `s` are added to it in order. */
  function Elems<T>(s: seq<T>): set<T> {
    if s == [] then {} else Elems(s[..|s| - 1]) + {s[|s| - 1]}
  }

  /** The set holds exactly the elements of the sequence. */
  lemma {:induction false} ElemsMembers<T>(s: seq<T>, x: T)
    ensures x in Elems(s) <==> x in s
  {
    if s != [] {
      ElemsMembers(s[..|s| - 1], x);
      assert s == s[..|s| - 1] + [s[|s| - 1]];
    }
  }

  /** Adding elements to a set never makes it larger than the number of additions. */
  lemma {:induction false} ElemsBound<T>(s: seq<T>)
    ensures |Elems(s)| <= |s|
  {
    if s != [] {
      ElemsBound(s[..|s| - 1]);
    }
  }

  /** Adding one more element. */
  lemma ElemsSnoc<T>(s: seq<T>, x: T)
    ensures Elems(s + [x]) == Elems(s) + {x}
  {
    assert (s + [x])[..|s|] == s;
  }

  /** Adding the elements of `a` and then those of `b`. */
  lemma {:induction false} ElemsAppend<T>(a: seq<T>, b: seq<T>)
    ensures Elems(a + b) == Elems(a) + Elems(b)
  {
    if b == [] {
      assert a + b == a;
    } else {
      var c := b[..|b| - 1];
      assert a + b == (a + c) + [b[|b| - 1]];
      ElemsAppend(a, c);
      ElemsSnoc(a + c, b[|b| - 1]);
    }
  }
}
