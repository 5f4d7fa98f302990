/** Text building blocks used by the renderers: the accumulating fold the
    renderers use to join a list, reference definitions of the joined text,
    and the split of a text into lines. */
module Strings {

  /** The accumulator fold `xs.iter().fold(acc, |s, x| format!("{}<sep>{}", s, render(x)))`:
      starting from `acc`, append `sep` and then the rendering of each element, left to right. */
  function FoldAppend<T>(acc: string, xs: seq<T>, sep: string, render: T -> string): string
    decreases |xs|
  {
    if xs == [] then acc else FoldAppend(acc + sep + render(xs[0]), xs[1..], sep, render)
  }

  /** Reference join: each element rendered and preceded by `sep`, in order. */
  ghost function Prefixed<T>(xs: seq<T>, sep: string, render: T -> string): string
    decreases |xs|
  {
    if xs == [] then "" else sep + render(xs[0]) + Prefixed(xs[1..], sep, render)
  }

  /** Each line followed by a newline, in order. */
  ghost function Unlines(ls: seq<string>): string
    decreases |ls|
  {
    if ls == [] then "" else ls[0] + "\n" + Unlines(ls[1..])
  }

  /** The renderings of the elements, in order. */
  ghost function Map<T>(xs: seq<T>, render: T -> string): (r: seq<string>)
    ensures |r| == |xs|
    decreases |xs|
  {
    if xs == [] then [] else [render(xs[0])] + Map(xs[1..], render)
  }

  /** The text cut at every `'\n'`; a text holding k newlines has k + 1 lines,
      the last of which is empty when the text ends with a newline. */
  ghost function Lines(s: string): (ls: seq<string>)
    ensures |ls| >= 1
    decreases |s|
  {
    if s == [] then [""] else ConsLine(s[0], Lines(s[1..]))
  }

  /** The lines of `[c] + t` from the lines `ls` of `t`: a newline starts a
      new empty first line, any other character joins the first line. */
  ghost function ConsLine(c: char, ls: seq<string>): (r: seq<string>)
    requires |ls| >= 1
    ensures |r| == if c == '\n' then |ls| + 1 else |ls|
  {
    if c == '\n' then [""] + ls else [[c] + ls[0]] + ls[1..]
  }

  /** Number of occurrences of `c` in `s`. */
  ghost function Count(s: string, c: char): nat
    decreases |s|
  {
    if s == [] then 0 else (if s[0] == c then 1 else 0) + Count(s[1..], c)
  }

  /** The fold builds exactly `acc` followed by the reference join. */
  lemma {:induction false} FoldAppendIsPrefixed<T>(acc: string, xs: seq<T>, sep: string, render: T -> string)
    ensures FoldAppend(acc, xs, sep, render) == acc + Prefixed(xs, sep, render)
    decreases |xs|
  {
    if xs != [] {
      FoldAppendIsPrefixed(acc + sep + render(xs[0]), xs[1..], sep, render);
    }
  }

  /** Moving the newline from the end to the front turns the newline-prefixed
      join into the renderings as lines. */
  lemma {:induction false} PrefixedShift<T>(xs: seq<T>, render: T -> string)
    ensures Prefixed(xs, "\n", render) + "\n" == "\n" + Unlines(Map(xs, render))
    decreases |xs|
  {
    if xs != [] {
      var r := render(xs[0]);
      PrefixedShift(xs[1..], render);
      var m := Map(xs, render);
      assert m[0] == r && m[1..] == Map(xs[1..], render);
      calc {
        Prefixed(xs, "\n", render) + "\n";
        "\n" + r + (Prefixed(xs[1..], "\n", render) + "\n");
        "\n" + r + ("\n" + Unlines(Map(xs[1..], render)));
        "\n" + Unlines(m);
      }
    }
  }

  /** Lines of a concatenation are laid out one after the other. */
  lemma {:induction false} UnlinesAppend(a: seq<string>, b: seq<string>)
    ensures Unlines(a + b) == Unlines(a) + Unlines(b)
    decreases |a|
  {
    if a == [] {
      assert a + b == b;
    } else {
      assert (a + b)[1..] == a[1..] + b;
      UnlinesAppend(a[1..], b);
    }
  }

  /** The lines of a text that starts with `c`. */
  lemma LinesCons(c: char, t: string)
    ensures Lines([c] + t) == ConsLine(c, Lines(t))
  {
    assert ([c] + t)[0] == c && ([c] + t)[1..] == t;
  }

  /** Lines added after the last one do not disturb the step. */
  lemma ConsLineAppend(c: char, la: seq<string>, lb: seq<string>)
    requires |la| >= 1
    ensures ConsLine(c, la + lb) == ConsLine(c, la) + lb
  {
    if c != '\n' {
      assert (la + lb)[0] == la[0] && (la + lb)[1..] == la[1..] + lb;
    }
  }

  /** Joining two texts with a newline joins their lines: the last line of
      `a` is ended by the newline and `b`'s lines follow. */
  lemma {:induction false} LinesJoin(a: string, b: string)
    ensures Lines(a + "\n" + b) == Lines(a) + Lines(b)
    decreases |a|
  {
    if a == [] {
      assert a + "\n" + b == ['\n'] + b;
      LinesCons('\n', b);
    } else {
      var t := a[1..] + "\n" + b;
      assert a + "\n" + b == [a[0]] + t;
      calc {
        Lines(a + "\n" + b);
        { LinesCons(a[0], t); }
        ConsLine(a[0], Lines(t));
        { LinesJoin(a[1..], b); }
        ConsLine(a[0], Lines(a[1..]) + Lines(b));
        { ConsLineAppend(a[0], Lines(a[1..]), Lines(b)); }
        ConsLine(a[0], Lines(a[1..])) + Lines(b);
      }
    }
  }

  /** A text without newline is one line. */
  lemma {:induction false} LinesSingle(a: string)
    requires '\n' !in a
    ensures Lines(a) == [a]
    decreases |a|
  {
    if a != [] {
      LinesSingle(a[1..]);
      assert [a[0]] + a[1..] == a;
    }
  }

  /** Newlines are exactly the line breaks: one fewer than the lines. */
  lemma {:induction false} NewlinesAreLineBreaks(s: string)
    ensures Count(s, '\n') == |Lines(s)| - 1
    decreases |s|
  {
    if s != [] {
      NewlinesAreLineBreaks(s[1..]);
    }
  }

  /** Occurrences in a concatenation add up. */
  lemma {:induction false} CountAppend(a: string, b: string, c: char)
    ensures Count(a + b, c) == Count(a, c) + Count(b, c)
    decreases |a|
  {
    if a == [] {
      assert a + b == b;
    } else {
      assert (a + b)[0] == a[0] && (a + b)[1..] == a[1..] + b;
      CountAppend(a[1..], b, c);
    }
  }

  /** A character that does not occur is counted zero times. */
  lemma {:induction false} CountAbsent(s: string, c: char)
    requires c !in s
    ensures Count(s, c) == 0
    decreases |s|
  {
    if s != [] {
      assert s == [s[0]] + s[1..];
      CountAbsent(s[1..], c);
    }
  }

  /** Joining newline-free renderings with a leading newline each: one
      newline per element. */
  lemma {:induction false} PrefixedNewlines<T>(xs: seq<T>, render: T -> string)
    requires forall x :: x in xs ==> '\n' !in render(x)
    ensures Count(Prefixed(xs, "\n", render), '\n') == |xs|
    decreases |xs|
  {
    if xs != [] {
      var r, rest := render(xs[0]), Prefixed(xs[1..], "\n", render);
      assert xs[0] in xs;
      CountAbsent(r, '\n');
      CountAppend("\n", r, '\n');
      CountAppend("\n" + r, rest, '\n');
      assert forall x :: x in xs[1..] ==> x in xs;
      PrefixedNewlines(xs[1..], render);
    }
  }

  lemma {:induction false} MapAt<T>(xs: seq<T>, render: T -> string, k: nat)
    requires k < |xs|
    ensures Map(xs, render)[k] == render(xs[k])
    decreases k
  {
    if k > 0 {
      MapAt(xs[1..], render, k - 1);
    }
  }

  /** Lines without newlines, each followed by a newline, split back into
      themselves and the empty text after the last newline. */
  lemma {:induction false} LinesUnlines(ls: seq<string>)
    requires forall l :: l in ls ==> '\n' !in l
    ensures Lines(Unlines(ls)) == ls + [""]
    decreases |ls|
  {
    if ls == [] {
      assert Unlines(ls) == "";
    } else {
      var rest := ls[1..];
      assert forall l :: l in rest ==> '\n' !in l by {
        forall l | l in rest ensures '\n' !in l {
          assert l in ls;
        }
      }
      calc {
        Lines(Unlines(ls));
        Lines(ls[0] + "\n" + Unlines(rest));
        { LinesJoin(ls[0], Unlines(rest)); }
        Lines(ls[0]) + Lines(Unlines(rest));
        { LinesSingle(ls[0]); LinesUnlines(rest); }
        [ls[0]] + (rest + [""]);
        { assert [ls[0]] + rest == ls; }
        ls + [""];
      }
    }
  }

  /** A prefixed join contains a character only if the separator or some rendering does. */
  lemma {:induction false} PrefixedAvoids<T>(xs: seq<T>, sep: string, render: T -> string, c: char)
    requires c !in sep
    requires forall x :: x in xs ==> c !in render(x)
    ensures c !in Prefixed(xs, sep, render)
    decreases |xs|
  {
    if xs != [] {
      PrefixedAvoids(xs[1..], sep, render, c);
    }
  }
}
