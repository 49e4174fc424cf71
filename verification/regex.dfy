/**
  A small regular-expression engine with the matching priority of Python's `re` module,
  restricted to the constructs the configuration editor uses: literal text, greedy
  repetition (`*` and `+`) of a character class, and capture-group boundaries.

  `MatchFrom` is the executable matcher (backtracking, longest repetition first, exactly
  the order in which Python's engine explores alternatives); `Accepts` is the declarative
  meaning of a pattern.  `MatchSound` and `MatchComplete` connect the two, so that any
  property of a match can be argued from `Accepts` and then transferred to the matcher.
*/
module Regex {
  import opened Text

  datatype Option<T> = None | Some(value: T)

  /** Python's `\s` on str patterns: exactly the characters for which `str.isspace()` holds. */
  predicate IsSpace(c: char) {
    ('\t' <= c <= '\r') || ('\U{1c}' <= c <= '\U{1f}') || c == ' '
    || c == '\U{85}' || c == '\U{a0}' || c == '\U{1680}'
    || ('\U{2000}' <= c <= '\U{200a}') || c == '\U{2028}' || c == '\U{2029}'
    || c == '\U{202f}' || c == '\U{205f}' || c == '\U{3000}'
  }

  /** `\s`, `[^\s]` and a negated set `[^...]`. */
  datatype CharClass = Space | NonSpace | NoneOf(excluded: string)

  predicate InClass(c: char, cls: CharClass) {
    match cls
    case Space => IsSpace(c)
    case NonSpace => !IsSpace(c)
    case NoneOf(excluded) => c !in excluded
  }

  /** `Rep(cls, 0)` is `cls*` and `Rep(cls, 1)` is `cls+`, both greedy. A `Mark` records the
      current position: a pair of marks is the span of a capture group. */
  datatype Node = Lit(text: string) | Rep(cls: CharClass, min: nat) | Mark

  datatype Pat = Done | Then(head: Node, tail: Pat)

  function Append(p: Pat, q: Pat): Pat {
    match p
    case Done => q
    case Then(n, rest) => Then(n, Append(rest, q))
  }

  /** The fewest characters any match of `p` consumes. */
  function MinLen(p: Pat): nat {
    match p
    case Done => 0
    case Then(Lit(w), rest) => |w| + MinLen(rest)
    case Then(Rep(_, min), rest) => min + MinLen(rest)
    case Then(Mark, rest) => MinLen(rest)
  }

  lemma {:induction false} MinLenAppend(p: Pat, q: Pat)
    ensures MinLen(Append(p, q)) == MinLen(p) + MinLen(q)
  {
    match p
    case Done =>
    case Then(n, rest) => MinLenAppend(rest, q);
  }

  function MarkCount(p: Pat): nat {
    match p
    case Done => 0
    case Then(Mark, rest) => 1 + MarkCount(rest)
    case Then(_, rest) => MarkCount(rest)
  }

  ghost predicate AllIn(cls: CharClass, s: string, i: nat, m: nat)
    requires i <= m <= |s|
  {
    forall k | i <= k < m :: InClass(s[k], cls)
  }

  /** Positions recorded by a match: inside [lo, hi] and in non-decreasing order. */
  predicate Ordered(ms: seq<nat>, lo: nat, hi: nat) {
    && (forall k | 0 <= k < |ms| :: lo <= ms[k] <= hi)
    && (forall a, b | 0 <= a < b < |ms| :: ms[a] <= ms[b])
  }

  /** Length of the longest run of characters of `cls` starting at `i`. */
  function Run(cls: CharClass, s: string, i: nat): (n: nat)
    requires i <= |s|
    ensures i + n <= |s|
    ensures forall k | i <= k < i + n :: InClass(s[k], cls)
    ensures i + n < |s| ==> !InClass(s[i + n], cls)
    decreases |s| - i
  {
    if i < |s| && InClass(s[i], cls) then 1 + Run(cls, s, i + 1) else 0
  }

  datatype Hit = Hit(end: nat, marks: seq<nat>)

  /** The match Python's engine reports for `p` anchored at position `i`, if any. */
  function MatchFrom(p: Pat, s: string, i: nat): (r: Option<Hit>)
    requires i <= |s|
    ensures r.Some? ==> i + MinLen(p) <= r.value.end <= |s|
    ensures r.Some? ==> |r.value.marks| == MarkCount(p)
    decreases p, 0
  {
    match p
    case Done => Some(Hit(i, []))
    case Then(Lit(w), rest) =>
      if OccursAt(s, w, i) then MatchFrom(rest, s, i + |w|) else None
    case Then(Mark, rest) =>
      (match MatchFrom(rest, s, i)
       case None => None
       case Some(h) => Some(Hit(h.end, [i] + h.marks)))
    case Then(Rep(cls, min), rest) =>
      TryRep(rest, s, i + min, i + Run(cls, s, i))
  }

  /** Greedy repetition: try to continue with `rest` after `k`, `k - 1`, ..., `lo` characters. */
  function TryRep(rest: Pat, s: string, lo: nat, k: nat): (r: Option<Hit>)
    requires k <= |s|
    ensures r.Some? ==> lo + MinLen(rest) <= r.value.end <= |s|
    ensures r.Some? ==> |r.value.marks| == MarkCount(rest)
    decreases rest, k + 1
  {
    if k < lo then None
    else match MatchFrom(rest, s, k)
      case Some(h) => Some(h)
      case None => if k == lo then None else TryRep(rest, s, lo, k - 1)
  }

  /** One step of the matcher over a literal that is present. */
  lemma MatchLitStep(w: string, rest: Pat, s: string, i: nat)
    requires OccursAt(s, w, i)
    ensures MatchFrom(Then(Lit(w), rest), s, i) == MatchFrom(rest, s, i + |w|)
  {
  }

  /** A literal that is present, then a match of `rest`. */
  lemma LitThen(w: string, rest: Pat, s: string, i: nat, e: nat)
    requires OccursAt(s, w, i) && MatchFrom(rest, s, i + |w|) == Some(Hit(e, []))
    ensures MatchFrom(Then(Lit(w), rest), s, i) == Some(Hit(e, []))
  {
    MatchLitStep(w, rest, s, i);
  }

  /** A match of a pattern that starts with a literal starts with that literal's text. */
  lemma MatchLitStart(w: string, rest: Pat, s: string, i: nat)
    requires i <= |s| && MatchFrom(Then(Lit(w), rest), s, i).Some?
    ensures OccursAt(s, w, i)
  {
  }

  /** One step of the matcher over a group boundary. */
  lemma MatchMarkStep(rest: Pat, s: string, i: nat)
    requires i <= |s| && MatchFrom(rest, s, i).Some?
    ensures MatchFrom(Then(Mark, rest), s, i)
            == Some(Hit(MatchFrom(rest, s, i).value.end, [i] + MatchFrom(rest, s, i).value.marks))
  {
  }

  /** One step of the matcher over a repetition whose longest run lets the rest match. */
  lemma MatchGreedyStep(cls: CharClass, min: nat, rest: Pat, s: string, i: nat, j: nat)
    requires i <= j <= |s| && i + min <= j && Run(cls, s, i) == j - i && MatchFrom(rest, s, j).Some?
    ensures MatchFrom(Then(Rep(cls, min), rest), s, i) == MatchFrom(rest, s, j)
  {
    RepUnfold(cls, min, rest, s, i);
    TryFirst(rest, s, i + min, j);
  }

  /** The greedy tries stop at the first length that lets the rest match. */
  lemma TryFirst(rest: Pat, s: string, lo: nat, k: nat)
    requires lo <= k <= |s| && MatchFrom(rest, s, k).Some?
    ensures TryRep(rest, s, lo, k) == MatchFrom(rest, s, k)
  {
  }

  /** The greedy tries settle on the longest length that lets the rest match. */
  lemma {:induction false} TryLastFit(rest: Pat, s: string, lo: nat, k: nat, m: nat)
    requires lo <= m <= k <= |s| && MatchFrom(rest, s, m).Some?
    requires forall q | m < q <= k :: MatchFrom(rest, s, q).None?
    ensures TryRep(rest, s, lo, k) == MatchFrom(rest, s, m)
    decreases k
  {
    if m < k {
      assert MatchFrom(rest, s, k).None?;
      TryLastFit(rest, s, lo, k - 1, m);
    }
  }

  /** One step of the matcher over a repetition that gives back characters: it stops at the
      longest prefix of its run after which the rest matches. */
  lemma MatchBacktrack(cls: CharClass, min: nat, rest: Pat, s: string, i: nat, m: nat)
    requires i <= |s| && i + min <= m <= i + Run(cls, s, i) && MatchFrom(rest, s, m).Some?
    requires forall q | m < q <= i + Run(cls, s, i) :: MatchFrom(rest, s, q).None?
    ensures MatchFrom(Then(Rep(cls, min), rest), s, i) == MatchFrom(rest, s, m)
  {
    var k := i + Run(cls, s, i);
    RepUnfold(cls, min, rest, s, i);
    TryLastFit(rest, s, i + min, k, m);
  }

  /** Two steps of the matcher: blanks, then a literal that does not start with a blank. */
  lemma MatchBlanksThenLit(min: nat, w: string, rest: Pat, s: string, i: nat, n: nat, e: nat)
    requires i + n <= |s| && min <= n && AllIn(Space, s, i, i + n)
    requires OccursAt(s, w, i + n) && w != [] && !IsSpace(w[0])
    requires MatchFrom(rest, s, i + n + |w|) == Some(Hit(e, []))
    ensures MatchFrom(Then(Rep(Space, min), Then(Lit(w), rest)), s, i) == Some(Hit(e, []))
  {
    BlanksBeforeLit(w, s, i, n);
    LitThen(w, rest, s, i + n, e);
    MatchGreedyStep(Space, min, Then(Lit(w), rest), s, i, i + n);
  }

  /** The blanks before a literal that does not start with a blank are a longest run. */
  lemma BlanksBeforeLit(w: string, s: string, i: nat, n: nat)
    requires i + n <= |s| && AllIn(Space, s, i, i + n)
    requires OccursAt(s, w, i + n) && w != [] && !IsSpace(w[0])
    ensures Run(Space, s, i) == n
  {
    OccursAtChar(s, w, i + n, 0);
    RunExact(Space, s, i, i + n);
  }

  /** Two steps of the matcher: a repetition that takes its longest run, then a group boundary. */
  lemma MatchRunMark(cls: CharClass, min: nat, rest: Pat, s: string, i: nat, n: nat)
    requires i + n <= |s| && min <= n && Run(cls, s, i) == n && MatchFrom(rest, s, i + n).Some?
    ensures var h := MatchFrom(rest, s, i + n).value;
            MatchFrom(Then(Rep(cls, min), Then(Mark, rest)), s, i) == Some(Hit(h.end, [i + n] + h.marks))
  {
    MatchMarkStep(rest, s, i + n);
    MatchGreedyStep(cls, min, Then(Mark, rest), s, i, i + n);
  }

  /** Three steps of the matcher: a capture group around a repetition that takes its longest run. */
  lemma MatchGroupRun(cls: CharClass, min: nat, rest: Pat, s: string, i: nat, n: nat)
    requires i + n <= |s| && min <= n && Run(cls, s, i) == n && MatchFrom(rest, s, i + n).Some?
    ensures var h := MatchFrom(rest, s, i + n).value;
            MatchFrom(Then(Mark, Then(Rep(cls, min), Then(Mark, rest))), s, i)
            == Some(Hit(h.end, [i, i + n] + h.marks))
  {
    var h := MatchFrom(rest, s, i + n).value;
    MatchRunMark(cls, min, rest, s, i, n);
    MatchMarkStep(Then(Rep(cls, min), Then(Mark, rest)), s, i);
    assert [i] + ([i + n] + h.marks) == [i, i + n] + h.marks;
  }

  /** A run of `cls` that stops at `j` has length `j - i`. */
  lemma RunExact(cls: CharClass, s: string, i: nat, j: nat)
    requires i <= j <= |s| && AllIn(cls, s, i, j) && (j == |s| || !InClass(s[j], cls))
    ensures Run(cls, s, i) == j - i
  {
    RunCovers(cls, s, i, j);
  }

  /** A repetition whose run of `cls` stops at `j` hands over to `rest` at `j`. */
  lemma RunThen(cls: CharClass, min: nat, rest: Pat, s: string, i: nat, j: nat, h: Hit)
    requires i + min <= j <= |s| && AllIn(cls, s, i, j) && (j == |s| || !InClass(s[j], cls))
    requires MatchFrom(rest, s, j) == Some(h)
    ensures MatchFrom(Then(Rep(cls, min), rest), s, i) == Some(h)
  {
    RunExact(cls, s, i, j);
    MatchGreedyStep(cls, min, rest, s, i, j);
  }

  /** A capture group around such a repetition records `[i, j]`. */
  lemma GroupThen(cls: CharClass, min: nat, rest: Pat, s: string, i: nat, j: nat, h: Hit)
    requires i + min <= j <= |s| && AllIn(cls, s, i, j) && (j == |s| || !InClass(s[j], cls))
    requires MatchFrom(rest, s, j) == Some(h)
    ensures MatchFrom(Then(Mark, Then(Rep(cls, min), Then(Mark, rest))), s, i) == Some(Hit(h.end, [i, j] + h.marks))
  {
    RunExact(cls, s, i, j);
    MatchGroupRun(cls, min, rest, s, i, j - i);
  }

  /** What a match means: `s[i..j]` is matched by `p`, recording the positions `ms`. */
  ghost predicate Accepts(p: Pat, s: string, i: nat, j: nat, ms: seq<nat>)
    decreases p
  {
    i <= j <= |s| &&
    match p
    case Done => i == j && ms == []
    case Then(Lit(w), rest) => OccursAt(s, w, i) && Accepts(rest, s, i + |w|, j, ms)
    case Then(Mark, rest) => |ms| > 0 && ms[0] == i && Accepts(rest, s, i, j, ms[1..])
    case Then(Rep(cls, min), rest) =>
      exists m | i + min <= m <= j :: AllIn(cls, s, i, m) && Accepts(rest, s, m, j, ms)
  }

  lemma {:induction false} RunCovers(cls: CharClass, s: string, i: nat, m: nat)
    requires i <= m <= |s| && AllIn(cls, s, i, m)
    ensures m <= i + Run(cls, s, i)
    decreases m - i
  {
    if i < m {
      RunCovers(cls, s, i + 1, m);
    }
  }

  lemma {:induction false} TrySound(rest: Pat, s: string, lo: nat, k: nat) returns (m: nat)
    requires k <= |s| && TryRep(rest, s, lo, k).Some?
    ensures lo <= m <= k && MatchFrom(rest, s, m) == TryRep(rest, s, lo, k)
    decreases k
  {
    if MatchFrom(rest, s, k).Some? {
      m := k;
    } else {
      m := TrySound(rest, s, lo, k - 1);
    }
  }

  /** Every match the engine reports is a match in the declarative sense. */
  lemma {:induction false} MatchSound(p: Pat, s: string, i: nat)
    requires i <= |s| && MatchFrom(p, s, i).Some?
    ensures Accepts(p, s, i, MatchFrom(p, s, i).value.end, MatchFrom(p, s, i).value.marks)
    decreases p, 1
  {
    match p
    case Done =>
    case Then(Lit(w), rest) =>
      MatchSound(rest, s, i + |w|);
      LitSound(w, rest, s, i);
    case Then(Mark, rest) =>
      MatchSound(rest, s, i);
      MarkSound(rest, s, i);
    case Then(Rep(cls, min), rest) =>
      RepMatchSound(cls, min, rest, s, i);
  }

  /** The case of `MatchSound` for a pattern that starts with a repetition. */
  lemma {:induction false} RepMatchSound(cls: CharClass, min: nat, rest: Pat, s: string, i: nat)
    requires i <= |s| && MatchFrom(Then(Rep(cls, min), rest), s, i).Some?
    ensures var h := MatchFrom(Then(Rep(cls, min), rest), s, i).value;
            Accepts(Then(Rep(cls, min), rest), s, i, h.end, h.marks)
    decreases Then(Rep(cls, min), rest), 0
  {
    RepUnfold(cls, min, rest, s, i);
    var m := TrySound(rest, s, i + min, i + Run(cls, s, i));
    MatchSound(rest, s, m);
    RepSound(cls, min, rest, s, i, m);
  }

  /** One step of the matcher over a repetition: the greedy tries from the longest run down. */
  lemma RepUnfold(cls: CharClass, min: nat, rest: Pat, s: string, i: nat)
    requires i <= |s|
    ensures MatchFrom(Then(Rep(cls, min), rest), s, i) == TryRep(rest, s, i + min, i + Run(cls, s, i))
  {
  }

  /** The step of `MatchSound` over a literal. */
  lemma LitSound(w: string, rest: Pat, s: string, i: nat)
    requires i <= |s| && MatchFrom(Then(Lit(w), rest), s, i).Some?
    requires i + |w| <= |s| && MatchFrom(rest, s, i + |w|).Some?
    requires Accepts(rest, s, i + |w|, MatchFrom(rest, s, i + |w|).value.end, MatchFrom(rest, s, i + |w|).value.marks)
    ensures var h := MatchFrom(Then(Lit(w), rest), s, i).value; Accepts(Then(Lit(w), rest), s, i, h.end, h.marks)
  {
  }

  /** The step of `MatchSound` over a group boundary. */
  lemma MarkSound(rest: Pat, s: string, i: nat)
    requires i <= |s| && MatchFrom(rest, s, i).Some?
    requires Accepts(rest, s, i, MatchFrom(rest, s, i).value.end, MatchFrom(rest, s, i).value.marks)
    ensures var h := MatchFrom(Then(Mark, rest), s, i).value; Accepts(Then(Mark, rest), s, i, h.end, h.marks)
  {
    var h := MatchFrom(rest, s, i).value;
    assert ([i] + h.marks)[1..] == h.marks;
  }

  /** The step of `MatchSound` over a repetition that stops at `m`. */
  lemma RepSound(cls: CharClass, min: nat, rest: Pat, s: string, i: nat, m: nat)
    requires i <= |s| && i + min <= m <= i + Run(cls, s, i)
    requires MatchFrom(rest, s, m) == TryRep(rest, s, i + min, i + Run(cls, s, i)) && MatchFrom(rest, s, m).Some?
    requires Accepts(rest, s, m, MatchFrom(rest, s, m).value.end, MatchFrom(rest, s, m).value.marks)
    ensures var h := MatchFrom(Then(Rep(cls, min), rest), s, i).value; Accepts(Then(Rep(cls, min), rest), s, i, h.end, h.marks)
  {
    RepUnfold(cls, min, rest, s, i);
    assert AllIn(cls, s, i, m);
  }

  lemma {:induction false} TryComplete(rest: Pat, s: string, lo: nat, k: nat, m: nat)
    requires k <= |s| && lo <= m <= k && MatchFrom(rest, s, m).Some?
    ensures TryRep(rest, s, lo, k).Some?
    decreases k
  {
    if MatchFrom(rest, s, k).None? {
      TryComplete(rest, s, lo, k - 1, m);
    }
  }

  /** Whenever some match of `p` starts at `i`, the engine reports one there. */
  lemma {:induction false} MatchComplete(p: Pat, s: string, i: nat, j: nat, ms: seq<nat>)
    requires Accepts(p, s, i, j, ms)
    ensures MatchFrom(p, s, i).Some?
    decreases p, 1
  {
    match p
    case Done =>
    case Then(Lit(w), rest) =>
      MatchComplete(rest, s, i + |w|, j, ms);
    case Then(Mark, rest) =>
      MatchComplete(rest, s, i, j, ms[1..]);
    case Then(Rep(cls, min), rest) =>
      var m := RepWitness(cls, min, rest, s, i, j, ms);
      RepMatchComplete(cls, min, rest, s, i, m, j, ms);
  }

  /** The case of `MatchComplete` for a pattern that starts with a repetition that hands over
      to the rest of the pattern at `m`. */
  lemma {:induction false} RepMatchComplete(cls: CharClass, min: nat, rest: Pat, s: string, i: nat, m: nat, j: nat,
                                            ms: seq<nat>)
    requires i <= |s| && i + min <= m <= i + Run(cls, s, i) && m <= j && Accepts(rest, s, m, j, ms)
    ensures MatchFrom(Then(Rep(cls, min), rest), s, i).Some?
    decreases Then(Rep(cls, min), rest), 0
  {
    MatchComplete(rest, s, m, j, ms);
    TryComplete(rest, s, i + min, i + Run(cls, s, i), m);
    RepUnfold(cls, min, rest, s, i);
  }

  /** Where a declarative match of a repetition hands over to the rest of the pattern: within
      the longest run. */
  lemma RepWitness(cls: CharClass, min: nat, rest: Pat, s: string, i: nat, j: nat, ms: seq<nat>)
    returns (m: nat)
    requires Accepts(Then(Rep(cls, min), rest), s, i, j, ms)
    ensures i <= |s| && i + min <= m <= i + Run(cls, s, i) && m <= j && Accepts(rest, s, m, j, ms)
  {
    m :| i + min <= m <= j && AllIn(cls, s, i, m) && Accepts(rest, s, m, j, ms);
    RunCovers(cls, s, i, m);
  }

  lemma {:induction false} AcceptsMarkCount(p: Pat, s: string, i: nat, j: nat, ms: seq<nat>)
    requires Accepts(p, s, i, j, ms)
    ensures |ms| == MarkCount(p)
    decreases p
  {
    match p
    case Done =>
    case Then(Lit(w), rest) => AcceptsMarkCount(rest, s, i + |w|, j, ms);
    case Then(Mark, rest) => AcceptsMarkCount(rest, s, i, j, ms[1..]);
    case Then(Rep(cls, min), rest) =>
      var m :| i + min <= m <= j && AllIn(cls, s, i, m) && Accepts(rest, s, m, j, ms);
      AcceptsMarkCount(rest, s, m, j, ms);
  }

  /** The last node of `p` is the literal `w`. */
  predicate EndsWithLit(p: Pat, w: string) {
    match p
    case Done => false
    case Then(n, rest) => if rest == Done then n == Lit(w) else EndsWithLit(rest, w)
  }

  /** A match of a pattern that ends with a literal ends with that literal's text. */
  lemma {:induction false} AcceptsEndsWithLit(p: Pat, s: string, i: nat, j: nat, ms: seq<nat>, w: string)
    requires Accepts(p, s, i, j, ms) && EndsWithLit(p, w)
    ensures |w| <= j && OccursAt(s, w, j - |w|)
    decreases p
  {
    match p
    case Then(Lit(x), rest) =>
      if rest != Done { AcceptsEndsWithLit(rest, s, i + |x|, j, ms, w); }
    case Then(Mark, rest) =>
      AcceptsEndsWithLit(rest, s, i, j, ms[1..], w);
    case Then(Rep(cls, min), rest) =>
      var m :| i + min <= m <= j && AllIn(cls, s, i, m) && Accepts(rest, s, m, j, ms);
      AcceptsEndsWithLit(rest, s, m, j, ms, w);
  }

  /** The engine's match of a pattern that ends with a literal ends with that literal's text. */
  lemma MatchEndsWithLit(p: Pat, s: string, i: nat, w: string)
    requires i <= |s| && MatchFrom(p, s, i).Some? && EndsWithLit(p, w)
    ensures |w| <= MatchFrom(p, s, i).value.end && OccursAt(s, w, MatchFrom(p, s, i).value.end - |w|)
  {
    MatchSound(p, s, i);
    AcceptsEndsWithLit(p, s, i, MatchFrom(p, s, i).value.end, MatchFrom(p, s, i).value.marks, w);
  }

  /** The positions a match records lie inside the match, in order. */
  lemma {:induction false} AcceptsOrdered(p: Pat, s: string, i: nat, j: nat, ms: seq<nat>)
    requires Accepts(p, s, i, j, ms)
    ensures Ordered(ms, i, j)
    decreases p
  {
    match p
    case Done =>
    case Then(Lit(w), rest) => AcceptsOrdered(rest, s, i + |w|, j, ms);
    case Then(Mark, rest) =>
      AcceptsOrdered(rest, s, i, j, ms[1..]);
      assert ms == [i] + ms[1..];
    case Then(Rep(cls, min), rest) =>
      var m :| i + min <= m <= j && AllIn(cls, s, i, m) && Accepts(rest, s, m, j, ms);
      AcceptsOrdered(rest, s, m, j, ms);
  }

  /** The positions the engine reports lie inside the match, in order. */
  lemma MatchOrdered(p: Pat, s: string, i: nat)
    requires i <= |s| && MatchFrom(p, s, i).Some?
    ensures Ordered(MatchFrom(p, s, i).value.marks, i, MatchFrom(p, s, i).value.end)
  {
    MatchSound(p, s, i);
    AcceptsOrdered(p, s, i, MatchFrom(p, s, i).value.end, MatchFrom(p, s, i).value.marks);
  }

  /** A match of `Append(p, q)` is a match of `p` followed by a match of `q`. */
  lemma {:induction false} AppendElim(p: Pat, q: Pat, s: string, i: nat, j: nat, ms: seq<nat>) returns (m: nat)
    requires Accepts(Append(p, q), s, i, j, ms)
    ensures i <= m <= j && MarkCount(p) <= |ms|
    ensures Accepts(p, s, i, m, ms[..MarkCount(p)]) && Accepts(q, s, m, j, ms[MarkCount(p)..])
    decreases p, 1
  {
    match p
    case Done =>
      m := i;
      assert ms[..0] == [] && ms[0..] == ms;
    case Then(Lit(w), rest) =>
      m := AppendElim(rest, q, s, i + |w|, j, ms);
    case Then(Mark, rest) =>
      m := AppendElimMark(rest, q, s, i, j, ms);
    case Then(Rep(cls, min), rest) =>
      m := AppendElimRep(cls, min, rest, q, s, i, j, ms);
  }

  /** The case of `AppendElim` for a pattern that starts with a group boundary. */
  lemma {:induction false} AppendElimMark(rest: Pat, q: Pat, s: string, i: nat, j: nat, ms: seq<nat>) returns (m: nat)
    requires Accepts(Append(Then(Mark, rest), q), s, i, j, ms)
    ensures i <= m <= j && MarkCount(Then(Mark, rest)) <= |ms|
    ensures Accepts(Then(Mark, rest), s, i, m, ms[..MarkCount(Then(Mark, rest))])
    ensures Accepts(q, s, m, j, ms[MarkCount(Then(Mark, rest))..])
    decreases Then(Mark, rest), 0
  {
    assert Accepts(Append(rest, q), s, i, j, ms[1..]);
    m := AppendElim(rest, q, s, i, j, ms[1..]);
    var c := MarkCount(rest);
    assert ms[..c + 1][1..] == ms[1..][..c];
    assert ms[1..][c..] == ms[c + 1..];
  }

  /** The case of `AppendElim` for a pattern that starts with a repetition. */
  lemma {:induction false} AppendElimRep(cls: CharClass, min: nat, rest: Pat, q: Pat, s: string, i: nat, j: nat,
                                         ms: seq<nat>) returns (m: nat)
    requires Accepts(Append(Then(Rep(cls, min), rest), q), s, i, j, ms)
    ensures i <= m <= j && MarkCount(Then(Rep(cls, min), rest)) <= |ms|
    ensures Accepts(Then(Rep(cls, min), rest), s, i, m, ms[..MarkCount(Then(Rep(cls, min), rest))])
    ensures Accepts(q, s, m, j, ms[MarkCount(Then(Rep(cls, min), rest))..])
    decreases Then(Rep(cls, min), rest), 0
  {
    var m0 :| i + min <= m0 <= j && AllIn(cls, s, i, m0) && Accepts(Append(rest, q), s, m0, j, ms);
    m := AppendElim(rest, q, s, m0, j, ms);
    assert AllIn(cls, s, i, m0) && Accepts(rest, s, m0, m, ms[..MarkCount(rest)]);
  }

  /** A match of `p` followed by a match of `q` is a match of `Append(p, q)`. */
  lemma {:induction false} AppendIntro(p: Pat, q: Pat, s: string, i: nat, m: nat, j: nat, ms1: seq<nat>, ms2: seq<nat>)
    requires Accepts(p, s, i, m, ms1) && Accepts(q, s, m, j, ms2)
    ensures Accepts(Append(p, q), s, i, j, ms1 + ms2)
    decreases p
  {
    match p
    case Done =>
      assert ms1 + ms2 == ms2;
    case Then(Lit(w), rest) =>
      AppendIntro(rest, q, s, i + |w|, m, j, ms1, ms2);
    case Then(Mark, rest) =>
      AppendIntro(rest, q, s, i, m, j, ms1[1..], ms2);
      assert (ms1 + ms2)[1..] == ms1[1..] + ms2;
    case Then(Rep(cls, min), rest) =>
      var m0 :| i + min <= m0 <= m && AllIn(cls, s, i, m0) && Accepts(rest, s, m0, m, ms1);
      AppendIntro(rest, q, s, m0, m, j, ms1, ms2);
      assert AllIn(cls, s, i, m0) && Accepts(Append(rest, q), s, m0, j, ms1 + ms2);
  }

  datatype Found = Found(start: nat, end: nat, marks: seq<nat>)

  /** `re.search` from position `from`: the leftmost position at which the engine matches. */
  function SearchFrom(p: Pat, s: string, from: nat): (r: Option<Found>)
    requires from <= |s|
    ensures r.Some? ==> from <= r.value.start <= |s|
                        && MatchFrom(p, s, r.value.start) == Some(Hit(r.value.end, r.value.marks))
    ensures r.Some? ==> forall q | from <= q < r.value.start :: MatchFrom(p, s, q).None?
    ensures r.None? ==> forall q | from <= q <= |s| :: MatchFrom(p, s, q).None?
    decreases |s| - from
  {
    match MatchFrom(p, s, from)
    case Some(h) => Some(Found(from, h.end, h.marks))
    case None => if from == |s| then None else SearchFrom(p, s, from + 1)
  }

  /** `re.search` reports the first position at which the engine matches. */
  lemma {:induction false} SearchFirst(p: Pat, s: string, from: nat, k: nat, h: Hit)
    requires from <= k <= |s| && MatchFrom(p, s, k) == Some(h)
    requires forall q | from <= q < k :: MatchFrom(p, s, q).None?
    ensures SearchFrom(p, s, from) == Some(Found(k, h.end, h.marks))
    decreases k - from
  {
    if from < k {
      assert MatchFrom(p, s, from).None?;
      SearchFirst(p, s, from + 1, k, h);
    }
  }

  /** A pattern that opens with a literal is first found where it matches, when no earlier
      position holds the literal's first character. */
  lemma LitLedFirst(w: string, rest: Pat, s: string, k: nat, h: Hit)
    requires w != [] && k <= |s| && MatchFrom(Then(Lit(w), rest), s, k) == Some(h)
    requires forall q | 0 <= q < k :: s[q] != w[0]
    ensures SearchFrom(Then(Lit(w), rest), s, 0) == Some(Found(k, h.end, h.marks))
  {
    forall q | 0 <= q < k ensures MatchFrom(Then(Lit(w), rest), s, q).None? {
      if OccursAt(s, w, q) {
        OccursAtChar(s, w, q, 0);
      }
    }
    SearchFirst(Then(Lit(w), rest), s, 0, k, h);
  }

  /** A match of `p` somewhere in `s`, recording no positions. */
  ghost predicate Occurs(p: Pat, s: string) {
    exists i, j | 0 <= i <= j <= |s| :: Accepts(p, s, i, j, [])
  }

  /** For a pattern without groups, `re.search` succeeds exactly when the pattern occurs. */
  lemma SearchIffOccurs(p: Pat, s: string)
    requires MarkCount(p) == 0
    ensures SearchFrom(p, s, 0).Some? <==> Occurs(p, s)
  {
    var r := SearchFrom(p, s, 0);
    if r.Some? {
      MatchSound(p, s, r.value.start);
      assert Accepts(p, s, r.value.start, r.value.end, []);
    }
    if Occurs(p, s) {
      var i, j :| 0 <= i <= j <= |s| && Accepts(p, s, i, j, []);
      MatchComplete(p, s, i, j, []);
    }
  }

  /** `re.finditer` from position `from`: successive leftmost matches, each search resuming
      where the previous match ended (the patterns used here never match the empty string). */
  function FindAll(p: Pat, s: string, from: nat): (r: seq<Found>)
    requires from <= |s| && MinLen(p) > 0
    ensures forall k | 0 <= k < |r| :: from <= r[k].start < r[k].end <= |s|
                                       && MatchFrom(p, s, r[k].start) == Some(Hit(r[k].end, r[k].marks))
    ensures forall a, b | 0 <= a < b < |r| :: r[a].end <= r[b].start
    ensures r == [] <==> SearchFrom(p, s, from).None?
    decreases |s| - from
  {
    match SearchFrom(p, s, from)
    case None => []
    case Some(f) => [f] + FindAll(p, s, f.end)
  }

  /** After the last match `re.finditer` reports, no further match can be found. */
  lemma {:induction false} FindAllLastIsLast(p: Pat, s: string, from: nat)
    requires from <= |s| && MinLen(p) > 0 && FindAll(p, s, from) != []
    ensures SearchFrom(p, s, FindAll(p, s, from)[|FindAll(p, s, from)| - 1].end).None?
    decreases |s| - from
  {
    var f := SearchFrom(p, s, from).value;
    var rest := FindAll(p, s, f.end);
    assert FindAll(p, s, from) == [f] + rest;
    if rest != [] {
      FindAllLastIsLast(p, s, f.end);
    }
  }

  /** `re.finditer` misses no match: every position at which the engine matches lies inside
      one of the reported spans. */
  lemma {:induction false} FindAllCovers(p: Pat, s: string, from: nat, q: nat)
    requires from <= q <= |s| && MinLen(p) > 0 && MatchFrom(p, s, q).Some?
    ensures exists k | 0 <= k < |FindAll(p, s, from)| ::
              FindAll(p, s, from)[k].start <= q < FindAll(p, s, from)[k].end
    decreases |s| - from
  {
    var f := SearchFrom(p, s, from).value;
    var r := FindAll(p, s, from);
    var rest := FindAll(p, s, f.end);
    assert r == [f] + rest;
    if q < f.end {
      assert r[0].start <= q < r[0].end;
    } else {
      FindAllCovers(p, s, f.end, q);
      var k :| 0 <= k < |rest| && rest[k].start <= q < rest[k].end;
      assert r[k + 1] == rest[k];
    }
  }

  /** `re.sub(p, '', s[from..])`: every match `re.finditer` reports is deleted. */
  function Sub(p: Pat, s: string, from: nat): (r: string)
    requires from <= |s| && MinLen(p) > 0
    ensures |r| <= |s| - from
    ensures SearchFrom(p, s, from).None? ==> r == s[from..]
    ensures SearchFrom(p, s, from).Some? ==> |r| < |s| - from
    decreases |s| - from
  {
    match SearchFrom(p, s, from)
    case None => s[from..]
    case Some(f) => s[from..f.start] + Sub(p, s, f.end)
  }

  /** The text between consecutive spans of `fs`, from `from` to the end of `s`. */
  function Gaps(s: string, fs: seq<Found>, from: nat): string
    requires from <= |s|
    requires forall k | 0 <= k < |fs| :: from <= fs[k].start <= fs[k].end <= |s|
    requires forall a, b | 0 <= a < b < |fs| :: fs[a].end <= fs[b].start
    decreases |fs|
  {
    if fs == [] then s[from..]
    else s[from..fs[0].start] + Gaps(s, fs[1..], fs[0].end)
  }

  /** Substitution with the empty string keeps exactly the text outside the reported matches. */
  lemma {:induction false} SubKeepsGaps(p: Pat, s: string, from: nat)
    requires from <= |s| && MinLen(p) > 0
    ensures Sub(p, s, from) == Gaps(s, FindAll(p, s, from), from)
    decreases |s| - from
  {
    match SearchFrom(p, s, from)
    case None =>
    case Some(f) =>
      var fs := FindAll(p, s, from);
      assert fs == [f] + FindAll(p, s, f.end);
      assert fs[1..] == FindAll(p, s, f.end);
      SubKeepsGaps(p, s, f.end);
  }
}
