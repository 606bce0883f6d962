/**
 * Task items fetched from the Notion database, the classification of their
 * "Prioridade" select by name, the "Feito" (done) filter, and per-class counts.
 */
module NotionItems {
  import opened JavaLang

  /**
   * One fetched task: the value of its "Feito" checkbox and the name of the
   * option chosen in its "Prioridade" select (null when none is chosen).
   */
  datatype Item = Item(done: bool, priorityName: Option<string>)

  /** The database returned by the Notion client. */
  datatype NotionDatabase = NotionDatabase(items: seq<Item>)

  /** The class a priority name falls into. */
  datatype Priority = Urgente | Importante | SemPressa | Unmatched | Blank

  /** The names of the priority enum constants, which upper-cased names are compared with. */
  const URGENTE: string := "URGENTE"
  const IMPORTANTE: string := "IMPORTANTE"
  const SEM_PRESSA: string := "SEM_PRESSA"

  /** Java's `Character.isWhitespace`, restricted to code points below 128. */
  predicate IsWhitespace(c: char) {
    c == ' ' || '\t' <= c <= '\r' || '\U{1C}' <= c <= '\U{1F}'
  }

  /** `StringUtils.isBlank`: null, empty, or whitespace only. */
  predicate IsBlank(name: Option<string>) {
    name.None? || forall i :: 0 <= i < |name.value| ==> IsWhitespace(name.value[i])
  }

  /** Java's `Character.toUpperCase` on ASCII letters; every other character is kept. */
  function UpperChar(c: char): char {
    if 'a' <= c <= 'z' then (c as int - 32) as char else c
  }

  /** Java's `String.toUpperCase` (ASCII case mapping). */
  function ToUpper(s: string): string {
    seq(|s|, i requires 0 <= i < |s| => UpperChar(s[i]))
  }

  /**
   * The class of a priority name: blank names are set apart; otherwise the
   * upper-cased name is compared with the three enum names.
   */
  function Classify(name: Option<string>): Priority {
    if IsBlank(name) then Blank
    else if ToUpper(name.value) == URGENTE then Urgente
    else if ToUpper(name.value) == IMPORTANTE then Importante
    else if ToUpper(name.value) == SEM_PRESSA then SemPressa
    else Unmatched
  }

  /** Matching is case-insensitive: a name and its upper-cased form fall into the same class. */
  lemma ClassifyIgnoresCase(s: string)
    ensures Classify(Some(s)) == Classify(Some(ToUpper(s)))
  {
    var u := ToUpper(s);
    assert ToUpper(u) == u;
    assert IsBlank(Some(s)) <==> IsBlank(Some(u)) by {
      forall i | 0 <= i < |s| ensures IsWhitespace(s[i]) <==> IsWhitespace(u[i]) {}
    }
  }

  /**
   * The items whose "Feito" checkbox is ticked, in their original order
   * (`notionItemsCompleted`).
   */
  function Completed(items: seq<Item>): (r: seq<Item>)
    ensures |r| <= |items|
    ensures forall x :: x in r ==> x in items && x.done
    ensures forall x :: x in items && x.done ==> x in r
  {
    if items == [] then []
    else (if items[0].done then [items[0]] else []) + Completed(items[1..])
  }

  /** `sub` is `s` with some elements removed and the rest kept in order. */
  ghost predicate IsSubsequence<T>(sub: seq<T>, s: seq<T>) {
    if sub == [] then true
    else if s == [] then false
    else (sub[0] == s[0] && IsSubsequence(sub[1..], s[1..])) || IsSubsequence(sub, s[1..])
  }

  /** The completed items keep the input order: they form a subsequence of it. */
  lemma {:induction false} CompletedIsSubsequence(items: seq<Item>)
    ensures IsSubsequence(Completed(items), items)
  {
    if items != [] {
      CompletedIsSubsequence(items[1..]);
      if !items[0].done {
        assert Completed(items) == Completed(items[1..]);
      } else {
        assert Completed(items)[1..] == Completed(items[1..]);
      }
    }
  }

  /**
   * The completed items hold each done item exactly as many times as the
   * input does, and no other item.
   */
  lemma {:induction false} CompletedMultiplicity(items: seq<Item>, x: Item)
    ensures multiset(Completed(items))[x] == if x.done then multiset(items)[x] else 0
  {
    if items != [] {
      CompletedMultiplicity(items[1..], x);
      assert items == [items[0]] + items[1..];
    }
  }

  /** Filtering is order-independent: permuted inputs give permuted outputs. */
  lemma CompletedPermutation(a: seq<Item>, b: seq<Item>)
    requires multiset(a) == multiset(b)
    ensures multiset(Completed(a)) == multiset(Completed(b))
  {
    forall x ensures multiset(Completed(a))[x] == multiset(Completed(b))[x] {
      CompletedMultiplicity(a, x);
      CompletedMultiplicity(b, x);
    }
  }

  /** The number of items whose priority name falls into class `p`. */
  function Count(items: seq<Item>, p: Priority): (n: nat)
    ensures n <= |items|
  {
    if items == [] then 0
    else Count(items[..|items| - 1], p) + (if Classify(items[|items| - 1].priorityName) == p then 1 else 0)
  }

  /** Counting distributes over concatenation. */
  lemma {:induction false} CountAppend(a: seq<Item>, b: seq<Item>, p: Priority)
    ensures Count(a + b, p) == Count(a, p) + Count(b, p)
  {
    if b != [] {
      assert (a + b)[..|a + b| - 1] == a + b[..|b| - 1];
      CountAppend(a, b[..|b| - 1], p);
    } else {
      assert a + b == a;
    }
  }

  lemma CountSingle(x: Item, p: Priority)
    ensures Count([x], p) == if Classify(x.priorityName) == p then 1 else 0
  {
    assert [x][..0] == [];
  }

  /** The five classes partition the items: their counts add up to the number of items. */
  lemma {:induction false} CountPartition(items: seq<Item>)
    ensures Count(items, Urgente) + Count(items, Importante) + Count(items, SemPressa)
            + Count(items, Unmatched) + Count(items, Blank) == |items|
  {
    if items != [] {
      CountPartition(items[..|items| - 1]);
    }
  }

  /** Counts do not depend on the order of the items. */
  lemma {:induction false} CountPermutation(a: seq<Item>, b: seq<Item>, p: Priority)
    requires multiset(a) == multiset(b)
    ensures Count(a, p) == Count(b, p)
    decreases |a|
  {
    if a == [] {
      assert b == [] by { assert |multiset(b)| == 0; }
    } else {
      var n := |a| - 1;
      var x := a[n];
      assert a == a[..n] + [x];
      assert x in multiset(b);
      var j :| 0 <= j < |b| && b[j] == x;
      var rest := b[..j] + b[j + 1..];
      assert b == b[..j] + [x] + b[j + 1..];
      assert multiset(a[..n]) == multiset(rest) by {
        assert multiset(a) == multiset(a[..n]) + multiset{x};
        assert multiset(b) == multiset(b[..j]) + multiset{x} + multiset(b[j + 1..]);
        assert multiset(rest) == multiset(b[..j]) + multiset(b[j + 1..]);
        assert multiset(a[..n]) == multiset(a) - multiset{x};
        assert multiset(rest) == multiset(b) - multiset{x};
      }
      CountPermutation(a[..n], rest, p);
      CountAppend(a[..n], [x], p);
      CountAppend(b[..j] + [x], b[j + 1..], p);
      CountAppend(b[..j], [x], p);
      CountAppend(b[..j], b[j + 1..], p);
      CountSingle(x, p);
    }
  }

  /** Removing items never raises a count: the completed items count at most as many in each class. */
  lemma {:induction false} CompletedCountAtMost(items: seq<Item>, p: Priority)
    ensures Count(Completed(items), p) <= Count(items, p)
  {
    if items != [] {
      var x, rest := items[0], items[1..];
      assert items == [x] + rest;
      CompletedCountAtMost(rest, p);
      CountAppend([x], rest, p);
      CountSingle(x, p);
      if x.done {
        assert Completed(items) == [x] + Completed(rest);
        CountAppend([x], Completed(rest), p);
      } else {
        assert Completed(items) == Completed(rest);
      }
    }
  }
}
