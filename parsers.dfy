/** Rendering of TDLib formatted text into HTML-like markup, and the choice of which message
    kinds carry text at all. Offsets are character indices into the text. */
module Parsers {
  import opened Base
  import opened TdLib

  /** A piece of markup to insert before the character at `offset`. */
  datatype Fragment = Fragment(offset: nat, markup: string)

  /** Opening and closing markup of each entity kind; `None` for kinds rendered as plain text. */
  function Formatting(kind: TextEntityType): Option<(string, string)>
  {
    match kind
    case Bold => Some(("<b>", "</b>"))
    case Code => Some(("<code>", "</code>"))
    case Hashtag => Some(("#", ""))
    case Italic => Some(("<i>", "</i>"))
    case PhoneNumber => Some(("<phone>", "</phone>"))
    case Pre => Some(("<pre>", "</pre>"))
    case PreCode => Some(("<pre><code>", "</code></pre>"))
    case Strikethrough => Some(("<strike>", "</strike>"))
    case TextUrl(url) => Some(("<a href=\"" + url + "\">", "</a>"))
    case Underline => Some(("<u>", "</u>"))
    case Url => Some(("<a>", "</a>"))
    case DefaultEntityType => None
    case BotCommand => None
    case Cashtag => None
    case EmailAddress => None
    case Mention => None
    case MentionName(_) => None
    case BankCardNumber => None
    case MediaTimestamp(_) => None
  }

  predicate IsMarkupEntity(e: TextEntity)
  {
    Formatting(e.kind).Some?
  }

  /** The two fragments one entity contributes: its opening markup at its offset and its
      closing markup at offset + length; none for a kind without markup. */
  function EntityFragments(e: TextEntity): seq<Fragment>
  {
    match Formatting(e.kind)
    case Some((open, close)) => [Fragment(e.offset, open), Fragment(e.offset + e.length, close)]
    case None => []
  }

  /** The fragments of an entity: opening markup at its offset, closing markup at its end,
      for the kinds with markup; nothing for mentions, commands, cashtags and the like. */
  lemma EntityFragmentsTable(offset: nat, length: nat, url: string)
    ensures EntityFragments(TextEntity(offset, length, Bold))
              == [Fragment(offset, "<b>"), Fragment(offset + length, "</b>")]
    ensures EntityFragments(TextEntity(offset, length, Hashtag))
              == [Fragment(offset, "#"), Fragment(offset + length, "")]
    ensures EntityFragments(TextEntity(offset, length, TextUrl(url)))
              == [Fragment(offset, "<a href=\"" + url + "\">"), Fragment(offset + length, "</a>")]
    ensures EntityFragments(TextEntity(offset, length, Url))
              == [Fragment(offset, "<a>"), Fragment(offset + length, "</a>")]
    ensures EntityFragments(TextEntity(offset, length, PhoneNumber))
              == [Fragment(offset, "<phone>"), Fragment(offset + length, "</phone>")]
    ensures EntityFragments(TextEntity(offset, length, PreCode))
              == [Fragment(offset, "<pre><code>"), Fragment(offset + length, "</code></pre>")]
    ensures EntityFragments(TextEntity(offset, length, BotCommand)) == []
    ensures EntityFragments(TextEntity(offset, length, Mention)) == []
    ensures EntityFragments(TextEntity(offset, length, Cashtag)) == []
  {
  }

  /** The fragments pushed for a list of entities, in push order. */
  function Pushed(entities: seq<TextEntity>): seq<Fragment>
  {
    if entities == [] then [] else Pushed(entities[..|entities| - 1]) + EntityFragments(entities[|entities| - 1])
  }

  function CountMarkup(entities: seq<TextEntity>): nat
  {
    if entities == [] then 0
    else CountMarkup(entities[1..]) + (if IsMarkupEntity(entities[0]) then 1 else 0)
  }

  /** Pushing is a homomorphism over concatenation: each entity's fragments appear in the
      order of the entities. */
  lemma {:induction false} PushedAppend(a: seq<TextEntity>, b: seq<TextEntity>)
    ensures Pushed(a + b) == Pushed(a) + Pushed(b)
    decreases |b|
  {
    if b == [] {
      assert a + b == a;
    } else {
      var b' := b[..|b| - 1];
      assert (a + b)[..|a + b| - 1] == a + b';
      assert (a + b)[|a + b| - 1] == b[|b| - 1];
      PushedAppend(a, b');
    }
  }

  /** Exactly two fragments per entity whose kind carries markup, none for the rest. */
  lemma {:induction false} PushedLength(entities: seq<TextEntity>)
    ensures |Pushed(entities)| == 2 * CountMarkup(entities)
    decreases |entities|
  {
    if entities != [] {
      PushedAppend([entities[0]], entities[1..]);
      assert [entities[0]] + entities[1..] == entities;
      assert Pushed([entities[0]]) == Pushed([]) + EntityFragments(entities[0]);
      PushedLength(entities[1..]);
    }
  }

  /** Entities of kinds without markup (mentions, bot commands, cashtags, ...) push nothing. */
  lemma {:induction false} PushedNoMarkup(entities: seq<TextEntity>)
    requires forall k :: 0 <= k < |entities| ==> !IsMarkupEntity(entities[k])
    ensures Pushed(entities) == []
    decreases |entities|
  {
    if entities != [] {
      PushedNoMarkup(entities[..|entities| - 1]);
    }
  }

  // ---------------------------------------------------------------------------------------
  // The stable sort by offset (`sort_by_key`) and the reversal that turn the pushed
  // fragments into a stack.

  ghost predicate SortedByOffset(s: seq<Fragment>)
  {
    forall i, j :: 0 <= i < j < |s| ==> s[i].offset <= s[j].offset
  }

  /** The fragments of `s` whose offset is `k`, in their order in `s`. */
  function WithOffset(s: seq<Fragment>, k: nat): seq<Fragment>
  {
    if s == [] then [] else (if s[0].offset == k then [s[0]] else []) + WithOffset(s[1..], k)
  }

  /** Inserts `f` before the first fragment whose offset is not smaller than its own. */
  function InsertByOffset(f: Fragment, s: seq<Fragment>): seq<Fragment>
  {
    if s == [] || f.offset <= s[0].offset then [f] + s else [s[0]] + InsertByOffset(f, s[1..])
  }

  lemma {:induction false} InsertSorted(f: Fragment, s: seq<Fragment>)
    requires SortedByOffset(s)
    ensures SortedByOffset(InsertByOffset(f, s))
    ensures InsertByOffset(f, s)[0] == if s == [] || f.offset <= s[0].offset then f else s[0]
    decreases |s|
  {
    if !(s == [] || f.offset <= s[0].offset) {
      InsertSorted(f, s[1..]);
    }
  }

  lemma {:induction false} InsertMultiset(f: Fragment, s: seq<Fragment>)
    ensures multiset(InsertByOffset(f, s)) == multiset(s) + multiset{f}
    decreases |s|
  {
    if !(s == [] || f.offset <= s[0].offset) {
      InsertMultiset(f, s[1..]);
      assert s == [s[0]] + s[1..];
    }
  }

  lemma {:induction false} InsertWithOffset(f: Fragment, s: seq<Fragment>, k: nat)
    ensures WithOffset(InsertByOffset(f, s), k) == (if f.offset == k then [f] else []) + WithOffset(s, k)
    decreases |s|
  {
    var r := InsertByOffset(f, s);
    if s == [] || f.offset <= s[0].offset {
      assert r == [f] + s && r[1..] == s;
    } else {
      var t := InsertByOffset(f, s[1..]);
      assert r == [s[0]] + t && r[1..] == t;
      InsertWithOffset(f, s[1..], k);
      var head := if s[0].offset == k then [s[0]] else [];
      var mid := if f.offset == k then [f] else [];
      assert head == [] || mid == [];
      calc {
        WithOffset(r, k);
        head + WithOffset(t, k);
        head + (mid + WithOffset(s[1..], k));
        mid + (head + WithOffset(s[1..], k));
        mid + WithOffset(s, k);
      }
    }
  }

  /** A stable ascending sort by offset (`sort_by_key` is stable), as insertion sort. */
  function SortByOffset(s: seq<Fragment>): seq<Fragment>
  {
    if s == [] then [] else InsertByOffset(s[0], SortByOffset(s[1..]))
  }

  /** The sort is sorted, and for every offset the fragments at that offset keep their
      relative order; hence it is also a permutation. */
  lemma SortByOffsetSpec(s: seq<Fragment>)
    ensures SortedByOffset(SortByOffset(s))
    ensures multiset(SortByOffset(s)) == multiset(s)
    ensures forall k :: WithOffset(SortByOffset(s), k) == WithOffset(s, k)
  {
    SortByOffsetSorted(s);
    SortByOffsetPermutes(s);
    forall k: nat ensures WithOffset(SortByOffset(s), k) == WithOffset(s, k) {
      SortByOffsetStable(s, k);
    }
  }

  lemma {:induction false} SortByOffsetSorted(s: seq<Fragment>)
    ensures SortedByOffset(SortByOffset(s))
    decreases |s|
  {
    if s != [] {
      SortByOffsetSorted(s[1..]);
      InsertSorted(s[0], SortByOffset(s[1..]));
    }
  }

  lemma {:induction false} SortByOffsetPermutes(s: seq<Fragment>)
    ensures multiset(SortByOffset(s)) == multiset(s)
    decreases |s|
  {
    if s != [] {
      SortByOffsetPermutes(s[1..]);
      InsertMultiset(s[0], SortByOffset(s[1..]));
      assert s == [s[0]] + s[1..];
    }
  }

  /** Fragments of equal offset leave the sort in the order they entered it. */
  lemma {:induction false} SortByOffsetStable(s: seq<Fragment>, k: nat)
    ensures WithOffset(SortByOffset(s), k) == WithOffset(s, k)
    decreases |s|
  {
    if s != [] {
      SortByOffsetStable(s[1..], k);
      InsertWithOffset(s[0], SortByOffset(s[1..]), k);
    }
  }

  function Reverse<T>(s: seq<T>): (r: seq<T>)
    ensures |r| == |s|
  {
    if s == [] then [] else Reverse(s[1..]) + [s[0]]
  }

  lemma {:induction false} ReverseAt<T>(s: seq<T>)
    ensures forall i :: 0 <= i < |s| ==> Reverse(s)[i] == s[|s| - 1 - i]
    decreases |s|
  {
    if s != [] {
      ReverseAt(s[1..]);
    }
  }

  lemma {:induction false} ReverseMultiset<T>(s: seq<T>)
    ensures multiset(Reverse(s)) == multiset(s)
    decreases |s|
  {
    if s != [] {
      ReverseMultiset(s[1..]);
      assert s == [s[0]] + s[1..];
    }
  }

  /** The order in which `parse_formatted_text` pops fragments off the stack. */
  function PopOrder(entities: seq<TextEntity>): seq<Fragment>
  {
    SortByOffset(Pushed(entities))
  }

  /** `make_entities_stack`: pushes each markup entity's two fragments, sorts them stably by
      offset and reverses the result, so that popping from the end yields `PopOrder`. */
  method MakeEntitiesStack(entities: seq<TextEntity>) returns (stack: seq<Fragment>)
    ensures stack == Reverse(PopOrder(entities))
  {
    stack := [];
    for k := 0 to |entities|
      invariant stack == Pushed(entities[..k])
    {
      var e := entities[k];
      assert entities[..k + 1][..k] == entities[..k];
      match Formatting(e.kind) {
        case Some((open, close)) =>
          stack := stack + [Fragment(e.offset, open), Fragment(e.offset + e.length, close)];
        case None =>
      }
    }
    assert entities[..|entities|] == entities;
    stack := Reverse(SortByOffset(stack));
  }

  /** The stack is in non-increasing offset order, holds exactly the pushed fragments, and
      pops fragments of equal offset in the order they were pushed. */
  lemma StackShape(entities: seq<TextEntity>)
    ensures var stack := Reverse(PopOrder(entities));
            && (forall i, j :: 0 <= i < j < |stack| ==> stack[i].offset >= stack[j].offset)
            && multiset(stack) == multiset(Pushed(entities))
            && forall k :: WithOffset(Reverse(stack), k) == WithOffset(Pushed(entities), k)
  {
    var order := PopOrder(entities);
    SortByOffsetSpec(Pushed(entities));
    ReverseAt(order);
    ReverseMultiset(order);
    ReverseTwice(order);
  }

  /** Popping the stack built from `s[k..]` yields `s[k]` and leaves the stack of `s[k + 1..]`. */
  lemma PopReverse<T>(s: seq<T>, k: nat)
    requires k < |s|
    ensures var st := Reverse(s[k..]);
            |st| > 0 && st[|st| - 1] == s[k] && st[..|st| - 1] == Reverse(s[k + 1..])
  {
    assert s[k..][1..] == s[k + 1..];
  }

  lemma ReverseTwice<T>(s: seq<T>)
    ensures Reverse(Reverse(s)) == s
  {
    ReverseAt(s);
    ReverseAt(Reverse(s));
  }

  // ---------------------------------------------------------------------------------------
  // What the renderer emits.

  /** The fragment at `j` has a larger offset than the one before it. */
  ghost predicate RisesAt(order: seq<Fragment>, j: nat)
    requires 0 < j < |order|
  {
    order[j - 1].offset < order[j].offset
  }

  /** The first `c` fragments of `order` can each be emitted in turn: every offset is inside
      a text of `n` characters and offsets strictly increase. */
  ghost predicate EmittablePrefix(order: seq<Fragment>, n: nat, c: nat)
  {
    c <= |order|
    && (forall j :: 0 <= j < c ==> order[j].offset < n)
    && (forall j :: 0 < j < c ==> RisesAt(order, j))
  }

  /** How far emission gets from fragment `c` on: up to the first fragment whose offset is at
      least `n` or does not exceed the previous fragment's offset. */
  ghost function EmittedFrom(order: seq<Fragment>, n: nat, c: nat): (m: nat)
    requires EmittablePrefix(order, n, c)
    ensures c <= m <= |order| && EmittablePrefix(order, n, m)
    ensures m < |order| ==> order[m].offset >= n || (m > 0 && order[m].offset <= order[m - 1].offset)
    decreases |order| - c
  {
    if c < |order| && order[c].offset < n && (c == 0 || order[c - 1].offset < order[c].offset) then
      EmittedFrom(order, n, c + 1)
    else
      c
  }

  /** The number of fragments emitted over a text of `n` characters. */
  ghost function EmittedCount(order: seq<Fragment>, n: nat): (m: nat)
    ensures m <= |order| && EmittablePrefix(order, n, m)
    ensures m < |order| ==> order[m].offset >= n || (m > 0 && order[m].offset <= order[m - 1].offset)
  {
    EmittedFrom(order, n, 0)
  }

  /** The markup of the fragment of `em` placed at `i`, or "" if there is none. */
  function MarkupBefore(em: seq<Fragment>, i: nat): (r: string)
    ensures (forall j :: 0 <= j < |em| ==> em[j].offset != i) ==> r == ""
  {
    if em == [] then "" else if em[0].offset == i then em[0].markup else MarkupBefore(em[1..], i)
  }

  lemma {:induction false} MarkupBeforeAt(em: seq<Fragment>, j: nat)
    requires j < |em|
    requires forall a :: 0 <= a < j ==> em[a].offset != em[j].offset
    ensures MarkupBefore(em, em[j].offset) == em[j].markup
    decreases j
  {
    if j > 0 {
      MarkupBeforeAt(em[1..], j - 1);
    }
  }

  /** The rendering of the first `i` characters: each character preceded by the markup of the
      emitted fragment at its index, if any. */
  function Layout(text: string, em: seq<Fragment>, i: nat): string
    requires i <= |text|
  {
    if i == 0 then "" else Layout(text, em, i - 1) + MarkupBefore(em, i - 1) + [text[i - 1]]
  }

  /** With no fragment at or after `k`, the rest of the text follows verbatim. */
  lemma {:induction false} LayoutTail(text: string, em: seq<Fragment>, k: nat, i: nat)
    requires k <= i <= |text|
    requires forall j :: 0 <= j < |em| ==> em[j].offset < k
    ensures Layout(text, em, i) == Layout(text, em, k) + text[k..i]
    decreases i
  {
    if i > k {
      LayoutTail(text, em, k, i - 1);
      assert text[k..i] == text[k..i - 1] + [text[i - 1]];
    }
  }

  /** With no fragments, the layout is the text itself. */
  lemma LayoutPlain(text: string, i: nat)
    requires i <= |text|
    ensures Layout(text, [], i) == text[..i]
  {
    LayoutTail(text, [], 0, i);
  }

  /** What `parse_formatted_text` returns, stated without its loop: the emitted fragments are
      the longest emittable prefix of the pop order, each placed right before the character
      at its offset. */
  ghost function Render(text: string, entities: seq<TextEntity>): string
  {
    var order := PopOrder(entities);
    Layout(text, order[..EmittedCount(order, |text|)], |text|)
  }

  /** Emitting fragment `c` of the emitted list at its own offset `i`. */
  lemma EmitStep(text: string, em: seq<Fragment>, c: nat, i: nat)
    requires i < |text| && c < |em| && em[c].offset == i
    requires forall a :: 0 <= a < c ==> em[a].offset < i
    ensures Layout(text, em, i + 1) == Layout(text, em, i) + em[c].markup + [text[i]]
  {
    MarkupBeforeAt(em, c);
  }

  /** A character with no emitted fragment at its index is copied alone. */
  lemma SkipStep(text: string, em: seq<Fragment>, i: nat)
    requires i < |text|
    requires forall j :: 0 <= j < |em| ==> em[j].offset != i
    ensures Layout(text, em, i + 1) == Layout(text, em, i) + [text[i]]
  {
  }

  /** Past the first `c` fragments of an emittable prefix, offsets rise above any bound `i`
      that all those fragments reach. */
  lemma RisesAbove(order: seq<Fragment>, n: nat, m: nat, c: nat, i: nat)
    requires EmittablePrefix(order, n, m) && c <= m
    requires forall j :: c <= j < m ==> order[j].offset >= i
    ensures forall j :: c < j < m ==> order[j].offset > i
  {
    forall j | c < j < m ensures order[j].offset > i {
      assert RisesAt(order, j);
    }
  }

  /** `parse_formatted_text`: builds the stack, returns the text itself when the stack is
      empty, and otherwise walks the text with the first popped fragment. */
  method ParseFormattedText(formatted: FormattedText) returns (r: string)
    ensures r == Render(formatted.text, formatted.entities)
    ensures (forall k :: 0 <= k < |formatted.entities| ==> !IsMarkupEntity(formatted.entities[k]))
            ==> r == formatted.text
  {
    ghost var order := PopOrder(formatted.entities);
    var stack := MakeEntitiesStack(formatted.entities);
    if forall k :: 0 <= k < |formatted.entities| ==> !IsMarkupEntity(formatted.entities[k]) {
      RenderNoMarkup(formatted.text, formatted.entities);
    }
    if |stack| == 0 {
      RenderNoFragments(formatted.text, formatted.entities);
      return formatted.text;
    }
    var current := stack[|stack| - 1];
    stack := stack[..|stack| - 1];
    r := WalkText(formatted.text, order, current, stack);
  }

  /** What the walk knows at character `i` with fragment `c` of `order` next to pop, where
      `m` fragments are emitted in all: every fragment already emitted lies before `i`,
      every one still to be emitted at or after it. */
  ghost predicate WalkState(text: string, order: seq<Fragment>, m: nat, c: nat, i: nat)
  {
    m == EmittedCount(order, |text|)
    && i <= |text| && c < |order| && c <= m
    && (forall j :: 0 <= j < c ==> order[j].offset < i)
    && (forall j :: c <= j < m ==> order[j].offset >= i)
  }

  /** The character at `i` carries fragment `c`: it is emitted there, and the walk moves on
      to fragment `c + 1` and character `i + 1`; if `c` was the last fragment, the rest of
      the text follows verbatim. */
  lemma EmitCase(text: string, order: seq<Fragment>, m: nat, c: nat, i: nat)
    requires WalkState(text, order, m, c, i) && i < |text| && order[c].offset == i
    ensures Layout(text, order[..m], i + 1) == Layout(text, order[..m], i) + order[c].markup + [text[i]]
    ensures c + 1 < |order| ==> WalkState(text, order, m, c + 1, i + 1)
    ensures c + 1 == |order| ==>
              Layout(text, order[..m], |text|) == Layout(text, order[..m], i + 1) + text[i + 1..]
  {
    var em := order[..m];
    assert forall a :: 0 <= a < c ==> em[a].offset < i by {
      assert forall a :: 0 <= a < c ==> em[a] == order[a];
    }
    EmitStep(text, em, c, i);
    RisesAbove(order, |text|, m, c, i);
    if c + 1 == |order| {
      EmitLast(text, order, m, c, i);
    }
  }

  /** After the last fragment is emitted at `i`, the rest of the text follows verbatim. */
  lemma EmitLast(text: string, order: seq<Fragment>, m: nat, c: nat, i: nat)
    requires WalkState(text, order, m, c, i) && i < |text| && order[c].offset == i && c + 1 == |order|
    ensures Layout(text, order[..m], |text|) == Layout(text, order[..m], i + 1) + text[i + 1..]
  {
    var em := order[..m];
    assert forall j :: 0 <= j < |em| ==> em[j].offset < i + 1 by {
      assert forall j :: 0 <= j < |em| ==> em[j] == order[j];
    }
    LayoutTail(text, em, i + 1, |text|);
  }

  /** The character at `i` carries no fragment: it is copied, and the walk moves on to
      character `i + 1` with the same fragment next. */
  lemma SkipCase(text: string, order: seq<Fragment>, m: nat, c: nat, i: nat)
    requires WalkState(text, order, m, c, i) && i < |text| && order[c].offset != i
    ensures Layout(text, order[..m], i + 1) == Layout(text, order[..m], i) + [text[i]]
    ensures WalkState(text, order, m, c, i + 1)
  {
    var em := order[..m];
    RisesAbove(order, |text|, m, c, i);
    assert forall j :: 0 <= j < |em| ==> em[j].offset != i by {
      assert forall j :: 0 <= j < m ==> em[j] == order[j];
    }
    SkipStep(text, em, i);
  }

  /** The loop of `parse_formatted_text` over the characters of `text`: the fragment `top`
      and then those popped from `rest` are emitted each before the character at its offset;
      when the stack runs empty the rest of the text is appended verbatim. */
  method WalkText(text: string, ghost order: seq<Fragment>, top: Fragment, rest: seq<Fragment>)
    returns (r: string)
    requires order != [] && top == order[0] && rest == Reverse(order[1..])
    ensures r == Layout(text, order[..EmittedCount(order, |text|)], |text|)
  {
    ghost var m: nat := EmittedCount(order, |text|);
    ghost var c: nat := 0;
    var current, stack := top, rest;
    r := "";
    var i := 0;
    while i < |text|
      invariant WalkState(text, order, m, c, i)
      invariant current == order[c] && stack == Reverse(order[c + 1..])
      invariant r == Layout(text, order[..m], i)
    {
      var done;
      done, current, stack, r, c := WalkChar(text, order, m, c, i, current, stack, r);
      if done {
        return;
      }
      i := i + 1;
    }
  }

  /** One iteration of the character loop at index `i`: either the fragment `current` is
      emitted before the character, or the character is copied alone. `done` reports that
      the stack ran empty, in which case `r2` already holds the whole rendering. */
  method WalkChar(text: string, ghost order: seq<Fragment>, ghost m: nat, ghost c: nat, i: nat,
                  current: Fragment, stack: seq<Fragment>, r: string)
    returns (done: bool, current2: Fragment, stack2: seq<Fragment>, r2: string, ghost c2: nat)
    requires WalkState(text, order, m, c, i) && i < |text|
    requires current == order[c] && stack == Reverse(order[c + 1..])
    requires r == Layout(text, order[..m], i)
    ensures done ==> r2 == Layout(text, order[..m], |text|)
    ensures !done ==> && WalkState(text, order, m, c2, i + 1)
                      && current2 == order[c2] && stack2 == Reverse(order[c2 + 1..])
                      && r2 == Layout(text, order[..m], i + 1)
  {
    var ch := text[i];
    if i == current.offset {
      EmitCase(text, order, m, c, i);
      r2 := r + current.markup + [ch];
      if |stack| == 0 {
        r2 := r2 + text[i + 1..];
        return true, current, stack, r2, c;
      }
      PopReverse(order, c + 1);
      current2 := stack[|stack| - 1];
      stack2 := stack[..|stack| - 1];
      c2 := c + 1;
      done := false;
    } else {
      SkipCase(text, order, m, c, i);
      r2 := r + [ch];
      done, current2, stack2, c2 := false, current, stack, c;
    }
  }

  /** With an empty pop order the rendering is the text itself. */
  lemma RenderNoFragments(text: string, entities: seq<TextEntity>)
    requires PopOrder(entities) == []
    ensures Render(text, entities) == text
  {
    LayoutPlain(text, |text|);
    assert text[..|text|] == text;
  }

  /** A rendering without markup entities is the text unchanged. */
  lemma RenderNoMarkup(text: string, entities: seq<TextEntity>)
    requires forall k :: 0 <= k < |entities| ==> !IsMarkupEntity(entities[k])
    ensures Render(text, entities) == text
  {
    PushedNoMarkup(entities);
    RenderNoFragments(text, entities);
  }

  /** The rendering as a sequence of pieces: for each character, the markup placed before it
      and then the character itself. */
  datatype Piece = Char(ch: char) | Markup(markup: string)

  function Pieces(text: string, em: seq<Fragment>, i: nat): seq<Piece>
    requires i <= |text|
  {
    if i == 0 then [] else Pieces(text, em, i - 1) + [Markup(MarkupBefore(em, i - 1)), Char(text[i - 1])]
  }

  /** The string a sequence of pieces spells. */
  function Spell(ps: seq<Piece>): string
  {
    if ps == [] then "" else Spell(ps[..|ps| - 1]) + (match ps[|ps| - 1] case Char(c) => [c] case Markup(m) => m)
  }

  /** The characters of a sequence of pieces, markup deleted. */
  function Erase(ps: seq<Piece>): string
  {
    if ps == [] then "" else Erase(ps[..|ps| - 1]) + (match ps[|ps| - 1] case Char(c) => [c] case Markup(_) => "")
  }

  /** The layout is what its pieces spell, and deleting the inserted markup from the pieces
      leaves every character of the text exactly once, in order. */
  lemma {:induction false} LayoutErasesToText(text: string, em: seq<Fragment>, i: nat)
    requires i <= |text|
    ensures Spell(Pieces(text, em, i)) == Layout(text, em, i)
    ensures Erase(Pieces(text, em, i)) == text[..i]
    decreases i
  {
    if i > 0 {
      LayoutErasesToText(text, em, i - 1);
      var ps := Pieces(text, em, i - 1);
      var qs := ps + [Markup(MarkupBefore(em, i - 1))];
      assert Pieces(text, em, i)[..|qs|] == qs;
      assert qs[..|ps|] == ps;
      assert text[..i] == text[..i - 1] + [text[i - 1]];
    }
  }

  /** A bold span over all of "abc" loses its closing tag: a fragment at the text's length
      is never emitted. */
  lemma RenderBoldWholeText()
    ensures Render("abc", [TextEntity(0, 3, Bold)]) == "<b>abc"
  {
    var es := [TextEntity(0, 3, Bold)];
    assert Pushed(es) == [Fragment(0, "<b>"), Fragment(3, "</b>")] by {
      assert es[..0] == [];
    }
    var order := [Fragment(0, "<b>"), Fragment(3, "</b>")];
    assert PopOrder(es) == order;
    assert EmittedCount(order, 3) == 1;
    var em := [Fragment(0, "<b>")];
    assert order[..1] == em;
    assert MarkupBefore(em, 1) == "" && MarkupBefore(em, 2) == "";
    assert Layout("abc", em, 1) == "<b>a";
    assert Layout("abc", em, 2) == "<b>ab";
  }

  /** A span strictly inside the text is wrapped in its markup. */
  lemma RenderInnerSpan()
    ensures Render("abcd", [TextEntity(1, 2, Bold)]) == "a<b>bc</b>d"
  {
    var es := [TextEntity(1, 2, Bold)];
    assert Pushed(es) == [Fragment(1, "<b>"), Fragment(3, "</b>")] by {
      assert es[..0] == [];
    }
    var em := [Fragment(1, "<b>"), Fragment(3, "</b>")];
    assert PopOrder(es) == em;
    assert EmittedCount(em, 4) == 2;
    assert em[..2] == em;
    InnerSpanLayout();
  }

  lemma InnerSpanLayout()
    ensures Layout("abcd", [Fragment(1, "<b>"), Fragment(3, "</b>")], 4) == "a<b>bc</b>d"
  {
    var em := [Fragment(1, "<b>"), Fragment(3, "</b>")];
    assert MarkupBefore(em, 0) == "" && MarkupBefore(em, 2) == "";
    assert MarkupBefore(em, 1) == "<b>" && MarkupBefore(em, 3) == "</b>";
    assert Layout("abcd", em, 1) == "a";
    assert Layout("abcd", em, 2) == "a<b>b";
    assert Layout("abcd", em, 3) == "a<b>bc";
  }

  /** Two fragments at one offset stop emission for good: the italic span that starts where
      the bold one ends is dropped entirely. */
  lemma RenderSharedOffsetStops()
    ensures Render("abcd", [TextEntity(0, 2, Bold), TextEntity(2, 2, Italic)]) == "<b>ab</b>cd"
  {
    var es := [TextEntity(0, 2, Bold), TextEntity(2, 2, Italic)];
    var pushed := [Fragment(0, "<b>"), Fragment(2, "</b>"), Fragment(2, "<i>"), Fragment(4, "</i>")];
    SharedOffsetPushed();
    SharedOffsetSorted();
    assert EmittedCount(pushed, 4) == 2;
    var em := [Fragment(0, "<b>"), Fragment(2, "</b>")];
    assert pushed[..2] == em;
    SharedOffsetLayout();
  }

  lemma SharedOffsetPushed()
    ensures Pushed([TextEntity(0, 2, Bold), TextEntity(2, 2, Italic)])
            == [Fragment(0, "<b>"), Fragment(2, "</b>"), Fragment(2, "<i>"), Fragment(4, "</i>")]
  {
    var es := [TextEntity(0, 2, Bold), TextEntity(2, 2, Italic)];
    assert es[..1] == [TextEntity(0, 2, Bold)];
    assert es[..1][..0] == [];
  }

  lemma SharedOffsetSorted()
    ensures var pushed := [Fragment(0, "<b>"), Fragment(2, "</b>"), Fragment(2, "<i>"), Fragment(4, "</i>")];
            SortByOffset(pushed) == pushed
  {
    var pushed := [Fragment(0, "<b>"), Fragment(2, "</b>"), Fragment(2, "<i>"), Fragment(4, "</i>")];
    var t3 := [Fragment(4, "</i>")];
    var t2 := [Fragment(2, "<i>")] + t3;
    var t1 := [Fragment(2, "</b>")] + t2;
    assert pushed[1..] == t1 && t1[1..] == t2 && t2[1..] == t3 && t3[1..] == [];
    assert SortByOffset(t3) == t3;
    assert SortByOffset(t2) == t2;
    assert SortByOffset(t1) == t1;
  }

  lemma SharedOffsetLayout()
    ensures Layout("abcd", [Fragment(0, "<b>"), Fragment(2, "</b>")], 4) == "<b>ab</b>cd"
  {
    var em := [Fragment(0, "<b>"), Fragment(2, "</b>")];
    assert MarkupBefore(em, 0) == "<b>" && MarkupBefore(em, 2) == "</b>";
    assert MarkupBefore(em, 1) == "" && MarkupBefore(em, 3) == "";
    assert Layout("abcd", em, 1) == "<b>a";
    assert Layout("abcd", em, 2) == "<b>ab";
    assert Layout("abcd", em, 3) == "<b>ab</b>c";
  }

  /** The text a message content yields: only text, animation and photo messages carry
      text; the first renders its body, the other two their caption. */
  ghost function ContentText(content: MessageContent): Option<string>
  {
    match content
    case MessageText(text) => Some(Render(text.text, text.entities))
    case MessageAnimation(caption) => Some(Render(caption.text, caption.entities))
    case MessageAudio(_) => None
    case MessageDocument(_) => None
    case MessagePhoto(caption) => Some(Render(caption.text, caption.entities))
    case MessageVideo(_) => None
    case MessageOther(_) => None
  }

  /** `parse_message_content`. */
  method ParseMessageContent(content: MessageContent) returns (r: Option<string>)
    ensures r == ContentText(content)
    ensures r.Some? <==> content.MessageText? || content.MessageAnimation? || content.MessagePhoto?
  {
    match content {
      case MessageText(text) =>
        var s := ParseFormattedText(text);
        r := Some(s);
      case MessageAnimation(caption) =>
        var s := ParseFormattedText(caption);
        r := Some(s);
      case MessageAudio(_) =>
        r := None;
      case MessageDocument(_) =>
        r := None;
      case MessagePhoto(caption) =>
        var s := ParseFormattedText(caption);
        r := Some(s);
      case MessageVideo(_) =>
        r := None;
      case MessageOther(_) =>
        r := None;
    }
  }
}
