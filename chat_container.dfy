/**
 * What client/src/components/ChatContainer.tsx decides: whether the final
 * options are offered, whether the mood selector or the conversation is on
 * screen, and how a chat bubble splits its text from the items of a list.
 */
module ChatContainer {
  import opened Wrappers
  import opened Text
  import opened ChatContent

  /**
   * The showFinalOptions state, as the effect sets it from the step and the
   * messages: only at step 3, and only when the last message invites
   * another session.
   */
  function ShowFinalOptions(currentStep: int, messages: seq<Message>): (show: bool)
    ensures show ==> currentStep == 3 && |messages| > 0
  {
    && currentStep == 3
    && |messages| > 0
    && var last := messages[|messages| - 1].text;
       Contains(last, "another session") || Contains(last, "Would you like to")
  }

  /** With the content table, the final options are offered at step 3 of every mood and at no other step. */
  lemma FinalOptionsAtLastStep(mood: Schema.Mood, step: int)
    ensures ShowFinalOptions(step, GetChatContent(mood, step)) <==> step == 3
  {
    if step == 3 {
      ClosingQuestion(mood);
    }
  }

  /** A rendered bubble: who speaks, the paragraph text and the list items under it. */
  datatype Bubble = Bubble(sender: Sender, shown: string, items: seq<string>)

  /** Where the first list block sits: "<ul" at start, the tag's ">" at open, "</ul>" at close. */
  datatype ListBlock = ListBlock(start: nat, open: nat, close: nat)

  /** Positions that /<ul.*?>(.*?)<\/ul>/s can match at (the s flag lets `.` take any character). */
  predicate ListShape(text: string, p: int, q: int, r: int)
  {
    Occurs(text, "<ul", p) && p + 3 <= q && Occurs(text, ">", q) && q + 1 <= r && Occurs(text, "</ul>", r)
  }

  /** The match String.prototype.match finds for the list regex. */
  function FirstList(text: string): Option<ListBlock>
  {
    match IndexOf(text, "<ul", 0)
    case None => None
    case Some(p) =>
      match IndexOf(text, ">", p + 3)
      case None => None
      case Some(q) =>
        match IndexOf(text, "</ul>", q + 1)
        case None => None
        case Some(c) => Some(ListBlock(p, q, c))
  }

  /** FirstList is a match of the list regex. */
  lemma FirstListShape(text: string)
    ensures FirstList(text).Some? ==>
      ListShape(text, FirstList(text).value.start, FirstList(text).value.open, FirstList(text).value.close)
  {
    if FirstList(text).Some? {
      var l := FirstList(text).value;
      IndexOfFound(text, "<ul", 0);
      IndexOfFound(text, ">", l.start + 3);
      IndexOfFound(text, "</ul>", l.open + 1);
    }
  }

  /**
   * FirstList is the match the regex prefers: the leftmost start, then the
   * shortest tag (lazy), then the shortest content (lazy).
   */
  lemma FirstListPreferred(text: string)
    ensures FirstList(text).Some? ==> forall p, q, c :: ListShape(text, p, q, c) ==>
      && FirstList(text).value.start <= p
      && (p == FirstList(text).value.start ==> FirstList(text).value.open <= q)
      && (p == FirstList(text).value.start && q == FirstList(text).value.open ==> FirstList(text).value.close <= c)
  {
    if FirstList(text).Some? {
      var l := FirstList(text).value;
      forall p, q, c | ListShape(text, p, q, c)
        ensures l.start <= p && (p == l.start ==> l.open <= q) && (p == l.start && q == l.open ==> l.close <= c)
      {
        IndexOfFirst(text, "<ul", 0, p);
        IndexOfFirst(text, ">", l.start + 3, q);
        IndexOfFirst(text, "</ul>", l.open + 1, c);
      }
    }
  }

  /** FirstList fails only when the text holds no list block at all. */
  lemma FirstListNone(text: string)
    ensures FirstList(text).None? ==> forall p, q, c :: !ListShape(text, p, q, c)
  {
    match IndexOf(text, "<ul", 0)
    case None =>
      forall p, q, c ensures !ListShape(text, p, q, c) {
        if 0 <= p {
          IndexOfNone(text, "<ul", 0, p);
        }
      }
    case Some(p0) =>
      match IndexOf(text, ">", p0 + 3)
      case None =>
        forall p, q, c ensures !ListShape(text, p, q, c) {
          if Occurs(text, "<ul", p) && p + 3 <= q {
            IndexOfFirst(text, "<ul", 0, p);
            IndexOfNone(text, ">", p0 + 3, q);
          }
        }
      case Some(q0) =>
        if IndexOf(text, "</ul>", q0 + 1).None? {
          forall p, q, c ensures !ListShape(text, p, q, c) {
            if Occurs(text, "<ul", p) && p + 3 <= q && Occurs(text, ">", q) && q + 1 <= c {
              IndexOfFirst(text, "<ul", 0, p);
              IndexOfFirst(text, ">", p0 + 3, q);
              IndexOfNone(text, "</ul>", q0 + 1, c);
            }
          }
        }
  }

  /** No character of `t` is one that `.` refuses without the s flag. */
  predicate NoLineTerminator(t: string)
  {
    forall i :: 0 <= i < |t| ==> !IsLineTerminator(t[i])
  }

  /** "<li>" at open, "</li>" at close. */
  datatype Span = Span(open: nat, close: nat)

  /** "<li>" starts at `i`, compared character by character. */
  predicate OpensAt(s: string, i: int)
  {
    0 <= i && i + 4 <= |s| && s[i] == '<' && s[i + 1] == 'l' && s[i + 2] == 'i' && s[i + 3] == '>'
  }

  /** "</li>" starts at `i`. */
  predicate ClosesAt(s: string, i: int)
  {
    0 <= i && i + 5 <= |s| && s[i] == '<' && s[i + 1] == '/' && s[i + 2] == 'l' && s[i + 3] == 'i' && s[i + 4] == '>'
  }

  /** The character comparisons are the substring tests. */
  lemma OpensAtOccurs(s: string, i: int)
    ensures OpensAt(s, i) <==> Occurs(s, "<li>", i)
  {
    if 0 <= i && i + 4 <= |s| {
      var w := s[i..i + 4];
      assert w[0] == s[i] && w[1] == s[i + 1] && w[2] == s[i + 2] && w[3] == s[i + 3];
      if OpensAt(s, i) {
        assert w == "<li>";
      }
    }
  }

  lemma ClosesAtOccurs(s: string, i: int)
    ensures ClosesAt(s, i) <==> Occurs(s, "</li>", i)
  {
    if 0 <= i && i + 5 <= |s| {
      var w := s[i..i + 5];
      assert w[0] == s[i] && w[1] == s[i + 1] && w[2] == s[i + 2] && w[3] == s[i + 3] && w[4] == s[i + 4];
      if ClosesAt(s, i) {
        assert w == "</li>";
      }
    }
  }

  /** Where the item regex, searching from `from`, next finds "<li>". */
  function NextOpen(s: string, from: nat): Option<nat>
    decreases |s| - from
  {
    if from + 4 > |s| then None
    else if OpensAt(s, from) then Some(from)
    else NextOpen(s, from + 1)
  }

  /** NextOpen finds the leftmost opening tag, and fails only when there is none. */
  lemma {:induction false} NextOpenSpec(s: string, from: nat)
    ensures var r := NextOpen(s, from);
      && (r.Some? ==> from <= r.value && OpensAt(s, r.value))
      && (r.Some? ==> forall i :: from <= i < r.value ==> !OpensAt(s, i))
      && (r.None? ==> forall i :: from <= i ==> !OpensAt(s, i))
    decreases |s| - from
  {
    if from + 4 <= |s| && !OpensAt(s, from) {
      NextOpenSpec(s, from + 1);
    }
  }

  /**
   * The lazy (.*?)<\/li> of the item regex from position `j`: at each
   * position the closing tag is tried first, and `.` steps over any
   * character but a line terminator.
   */
  function LazyClose(s: string, j: nat): Option<nat>
    decreases |s| - j
  {
    if j + 5 > |s| then None
    else if ClosesAt(s, j) then Some(j)
    else if IsLineTerminator(s[j]) then None
    else LazyClose(s, j + 1)
  }

  /**
   * LazyClose stops at the first closing tag, having crossed no other and no
   * line terminator; it fails only when every closing tag from `j` on lies
   * behind a line terminator.
   */
  lemma {:induction false} LazyCloseSpec(s: string, j: nat)
    ensures var r := LazyClose(s, j);
      && (r.Some? ==> j <= r.value && ClosesAt(s, r.value))
      && (r.Some? ==> forall k :: j <= k < r.value ==> !ClosesAt(s, k))
      && (r.Some? ==> forall k :: j <= k < r.value ==> !IsLineTerminator(s[k]))
      && (r.None? ==> forall k :: j <= k && ClosesAt(s, k) ==> exists t :: j <= t < k && IsLineTerminator(s[t]))
    decreases |s| - j
  {
    if j + 5 <= |s| && !ClosesAt(s, j) {
      if IsLineTerminator(s[j]) {
        forall k | j <= k && ClosesAt(s, k)
          ensures exists t :: j <= t < k && IsLineTerminator(s[t])
        {
          assert j < k && IsLineTerminator(s[j]);
        }
      } else {
        LazyCloseSpec(s, j + 1);
      }
    }
  }

  /** /<li>(.*?)<\/li>/ can match starting at `a`. */
  predicate ItemAt(s: string, a: int)
  {
    OpensAt(s, a) && LazyClose(s, a + 4).Some?
  }

  /**
   * ItemAt is the regex itself: "<li>" at `a`, then some "</li>" that can be
   * reached from the end of the tag without crossing a line terminator.
   */
  lemma ItemAtIff(s: string, a: int)
    ensures ItemAt(s, a) <==>
      && OpensAt(s, a)
      && exists k :: a + 4 <= k && ClosesAt(s, k) && forall t :: a + 4 <= t < k ==> !IsLineTerminator(s[t])
  {
    if OpensAt(s, a) {
      LazyCloseSpec(s, a + 4);
      var r := LazyClose(s, a + 4);
      if r.Some? {
        var k := r.value;
        assert a + 4 <= k && ClosesAt(s, k) && forall t :: a + 4 <= t < k ==> !IsLineTerminator(s[t]);
      }
    }
  }

  /** `sp` is the match that starts at its opening tag. */
  predicate Matched(s: string, sp: Span)
  {
    OpensAt(s, sp.open) && LazyClose(s, sp.open + 4) == Some(sp.close)
  }

  /** One exec of the global item regex from lastIndex `from`. */
  function NextItem(s: string, from: nat): Option<Span>
    decreases |s| - from
  {
    match NextOpen(s, from)
    case None => None
    case Some(a) =>
      NextOpenSpec(s, from);
      match LazyClose(s, a + 4)
      case None => NextItem(s, a + 1)
      case Some(b) => Some(Span(a, b))
  }

  /** A match starts at or after lastIndex, is a match, and lies inside the text. */
  lemma {:induction false} NextItemSpec(s: string, from: nat)
    ensures var r := NextItem(s, from);
      && (r.Some? ==> from <= r.value.open && Matched(s, r.value))
      && (r.Some? ==> r.value.open + 4 <= r.value.close && r.value.close + 5 <= |s|)
    decreases |s| - from
  {
    NextOpenSpec(s, from);
    match NextOpen(s, from)
    case None =>
    case Some(a) =>
      LazyCloseSpec(s, a + 4);
      if LazyClose(s, a + 4).None? {
        NextItemSpec(s, a + 1);
      }
  }

  /** The match exec finds is the leftmost one: no item starts between lastIndex and it. */
  lemma {:induction false} NextItemLeftmost(s: string, from: nat)
    requires NextItem(s, from).Some?
    ensures forall a :: from <= a < NextItem(s, from).value.open ==> !ItemAt(s, a)
    decreases |s| - from
  {
    NextOpenSpec(s, from);
    var a := NextOpen(s, from).value;
    if LazyClose(s, a + 4).None? {
      NextItemLeftmost(s, a + 1);
    }
  }

  /** exec fails only when no item starts at or after lastIndex. */
  lemma {:induction false} NextItemNone(s: string, from: nat)
    requires NextItem(s, from).None?
    ensures forall a :: from <= a ==> !ItemAt(s, a)
    decreases |s| - from
  {
    NextOpenSpec(s, from);
    if NextOpen(s, from).Some? {
      NextItemNone(s, NextOpen(s, from).value + 1);
    }
  }

  /** The successive matches of the exec loop from lastIndex `from`; each resumes after the previous one. */
  function ItemSpans(s: string, from: nat): seq<Span>
    decreases |s| - from
  {
    match NextItem(s, from)
    case None => []
    case Some(sp) =>
      NextItemSpec(s, from);
      [sp] + ItemSpans(s, sp.close + 5)
  }

  /** Every span is a match inside the text, and the spans come in order of appearance without overlapping. */
  lemma {:induction false} ItemSpansSpec(s: string, from: nat)
    ensures forall i :: 0 <= i < |ItemSpans(s, from)| ==> from <= ItemSpans(s, from)[i].open && Matched(s, ItemSpans(s, from)[i])
    ensures forall i :: 0 <= i < |ItemSpans(s, from)| ==>
      ItemSpans(s, from)[i].open + 4 <= ItemSpans(s, from)[i].close && ItemSpans(s, from)[i].close + 5 <= |s|
    ensures forall i, k :: 0 <= i < k < |ItemSpans(s, from)| ==> ItemSpans(s, from)[i].close + 5 <= ItemSpans(s, from)[k].open
    decreases |s| - from
  {
    NextItemSpec(s, from);
    match NextItem(s, from)
    case None =>
      assert ItemSpans(s, from) == [];
    case Some(sp) =>
      ItemSpansSpec(s, sp.close + 5);
      var rest := ItemSpans(s, sp.close + 5);
      var r := ItemSpans(s, from);
      assert r == [sp] + rest;
      forall i | 0 <= i < |r|
        ensures from <= r[i].open && Matched(s, r[i])
        ensures r[i].open + 4 <= r[i].close && r[i].close + 5 <= |s|
      {
        if i == 0 {
          assert r[i] == sp;
        } else {
          assert r[i] == rest[i - 1];
        }
      }
      forall i, k | 0 <= i < k < |r| ensures r[i].close + 5 <= r[k].open {
        assert r[k] == rest[k - 1];
        if i == 0 {
          assert r[i] == sp;
        } else {
          assert r[i] == rest[i - 1];
        }
      }
  }

  /** The text a match captures. */
  function ItemText(s: string, sp: Span): string
    requires sp.open + 4 <= sp.close <= |s|
  {
    s[sp.open + 4..sp.close]
  }

  /** The captures the exec loop collects from lastIndex `from` on. */
  function ItemsFrom(s: string, from: nat): seq<string>
    decreases |s| - from
  {
    match NextItem(s, from)
    case None => []
    case Some(sp) =>
      NextItemSpec(s, from);
      [ItemText(s, sp)] + ItemsFrom(s, sp.close + 5)
  }

  /** The listItems ChatBubble collects from a list block's content. */
  function ListItems(s: string): seq<string>
  {
    ItemsFrom(s, 0)
  }

  /** One capture per match, each the text between the match's tags. */
  lemma {:induction false} ItemsFromSpans(s: string, from: nat)
    ensures |ItemsFrom(s, from)| == |ItemSpans(s, from)|
    ensures forall i :: 0 <= i < |ItemSpans(s, from)| ==>
      ItemSpans(s, from)[i].open + 4 <= ItemSpans(s, from)[i].close <= |s| &&
      ItemsFrom(s, from)[i] == ItemText(s, ItemSpans(s, from)[i])
    decreases |s| - from
  {
    NextItemSpec(s, from);
    match NextItem(s, from)
    case None =>
    case Some(sp) =>
      ItemsFromSpans(s, sp.close + 5);
      var spans, items := ItemSpans(s, sp.close + 5), ItemsFrom(s, sp.close + 5);
      assert ItemSpans(s, from) == [sp] + spans;
      assert ItemsFrom(s, from) == [ItemText(s, sp)] + items;
  }

  /** No item starts before the first match. */
  lemma NoItemBeforeFirst(s: string, from: nat)
    requires ItemSpans(s, from) != []
    ensures forall a :: from <= a < ItemSpans(s, from)[0].open ==> !ItemAt(s, a)
  {
    NextItemLeftmost(s, from);
  }

  /** No item starts after the last match, and none at all when there is no match. */
  lemma {:induction false} NoItemAfterLast(s: string, from: nat)
    ensures ItemSpans(s, from) == [] ==> forall a :: from <= a ==> !ItemAt(s, a)
    ensures ItemSpans(s, from) != [] ==>
      forall a :: ItemSpans(s, from)[|ItemSpans(s, from)| - 1].close + 5 <= a ==> !ItemAt(s, a)
    decreases |s| - from
  {
    NextItemSpec(s, from);
    match NextItem(s, from)
    case None =>
      NextItemNone(s, from);
    case Some(sp) =>
      NoItemAfterLast(s, sp.close + 5);
      var rest := ItemSpans(s, sp.close + 5);
      if rest != [] {
        assert ItemSpans(s, from)[|ItemSpans(s, from)| - 1] == rest[|rest| - 1];
      }
  }

  /** No item starts between two successive matches: the loop misses none. */
  lemma {:induction false} NoItemBetween(s: string, from: nat)
    ensures forall i, a ::
      0 <= i < |ItemSpans(s, from)| - 1 && ItemSpans(s, from)[i].close + 5 <= a < ItemSpans(s, from)[i + 1].open
      ==> !ItemAt(s, a)
    decreases |s| - from
  {
    NextItemSpec(s, from);
    match NextItem(s, from)
    case None =>
    case Some(sp) =>
      var rest := ItemSpans(s, sp.close + 5);
      var r := ItemSpans(s, from);
      NoItemBetween(s, sp.close + 5);
      if rest != [] {
        NoItemBeforeFirst(s, sp.close + 5);
      }
      forall i, a | 0 <= i < |r| - 1 && r[i].close + 5 <= a < r[i + 1].open ensures !ItemAt(s, a) {
        if i > 0 {
          assert r[i] == rest[i - 1] && r[i + 1] == rest[i];
        }
      }
  }

  /** A capture holds no line terminator and no closing tag. */
  lemma ItemIsClean(s: string, sp: Span)
    requires Matched(s, sp)
    ensures sp.open + 4 <= sp.close <= |s|
    ensures NoLineTerminator(ItemText(s, sp)) && !Contains(ItemText(s, sp), "</li>")
  {
    LazyCloseSpec(s, sp.open + 4);
    var t := ItemText(s, sp);
    forall i | 0 <= i < |t| ensures !IsLineTerminator(t[i]) {
      assert t[i] == s[sp.open + 4 + i];
    }
    forall k | 0 <= k && k + 5 <= |t| ensures !Occurs(t, "</li>", k) {
      ClosesAtOccurs(t, k);
      assert ClosesAt(t, k) == ClosesAt(s, sp.open + 4 + k);
    }
    IndexOfSpec(t, "</li>", 0);
  }

  /** No collected item holds a line terminator or a closing tag. */
  lemma ItemsAreClean(s: string)
    ensures forall i :: 0 <= i < |ListItems(s)| ==>
      NoLineTerminator(ListItems(s)[i]) && !Contains(ListItems(s)[i], "</li>")
  {
    var spans := ItemSpans(s, 0);
    ItemsFromSpans(s, 0);
    ItemSpansSpec(s, 0);
    forall i | 0 <= i < |spans| ensures NoLineTerminator(ListItems(s)[i]) && !Contains(ListItems(s)[i], "</li>") {
      ItemIsClean(s, spans[i]);
    }
  }

  /** One more pass of the exec loop moves one capture from what is left to what is collected. */
  lemma ItemsFromStep(s: string, from: nat, acc: seq<string>)
    requires NextItem(s, from).Some?
    ensures var sp := NextItem(s, from).value;
      && sp.open + 4 <= sp.close && sp.close + 5 <= |s| && from < sp.close + 5
      && acc + ItemsFrom(s, from) == (acc + [ItemText(s, sp)]) + ItemsFrom(s, sp.close + 5)
  {
    NextItemSpec(s, from);
    var sp := NextItem(s, from).value;
    var rest := ItemsFrom(s, sp.close + 5);
    assert ItemsFrom(s, from) == [ItemText(s, sp)] + rest;
    assert acc + ([ItemText(s, sp)] + rest) == (acc + [ItemText(s, sp)]) + rest;
  }

  /** The exec loop of ChatBubble: push each capture until exec fails. */
  method CollectItems(group: string) returns (listItems: seq<string>)
    ensures listItems == ListItems(group)
  {
    listItems := [];
    var lastIndex := 0;
    var itemMatch := NextItem(group, lastIndex);
    while itemMatch.Some?
      invariant itemMatch == NextItem(group, lastIndex)
      invariant ListItems(group) == listItems + ItemsFrom(group, lastIndex)
      decreases |group| - lastIndex
    {
      var sp := itemMatch.value;
      ItemsFromStep(group, lastIndex, listItems);
      listItems := listItems + [group[sp.open + 4..sp.close]];
      lastIndex := sp.close + 5;
      itemMatch := NextItem(group, lastIndex);
    }
  }

  /**
   * The list block ChatBubble cuts out of a text: the first one, when the
   * text has "<li>" and the block's content is not empty.
   */
  function BlockToCut(text: string): Option<ListBlock>
  {
    if !Contains(text, "<li>") then None
    else
      match FirstList(text)
      case None => None
      case Some(l) => if l.open + 1 < l.close then Some(l) else None
  }

  /** ChatBubble's processing: the block to cut goes, and its items are shown; any other text is shown as it is. */
  function BubbleOf(m: Message): Bubble
  {
    match BlockToCut(m.text)
    case None => Bubble(m.sender, m.text, [])
    case Some(l) =>
      FirstListShape(m.text);
      Bubble(m.sender, Cut(m.text, l.start, l.close + 5), ListItems(m.text[l.open + 1..l.close]))
  }

  /** ChatBubble's processing of its text, as the component runs it. */
  method RenderBubble(m: Message) returns (b: Bubble)
    ensures b == BubbleOf(m)
  {
    var text := m.text;
    var processedText := text;
    var listItems: seq<string> := [];
    if Contains(text, "<li>") {
      var block := FirstList(text);
      FirstListShape(text);
      if block.Some? && block.value.open + 1 < block.value.close {
        var l := block.value;
        assert BlockToCut(text) == Some(l);
        processedText := Cut(text, l.start, l.close + 5);
        listItems := CollectItems(text[l.open + 1..l.close]);
      } else {
        assert BlockToCut(text) == None;
      }
    } else {
      assert BlockToCut(text) == None;
    }
    b := Bubble(m.sender, processedText, listItems);
  }

  /** A text without "<li>" passes through unchanged, with no list items. */
  lemma PlainTextUnchanged(m: Message)
    requires !Contains(m.text, "<li>")
    ensures BubbleOf(m) == Bubble(m.sender, m.text, [])
  {
    assert BlockToCut(m.text) == None;
  }

  /** text.replace of the matched block: text[a..b] cut out. */
  function Cut(text: string, a: nat, b: nat): string
    requires a <= b <= |text|
  {
    text[..a] + text[b..]
  }

  /** What was before the cut part stays in front, what was after it stays behind, and nothing else is lost. */
  lemma CutSpec(text: string, a: nat, b: nat)
    requires a <= b <= |text|
    ensures |Cut(text, a, b)| == |text| - (b - a)
    ensures Cut(text, a, b)[..a] == text[..a] && Cut(text, a, b)[a..] == text[b..]
    ensures text == Cut(text, a, b)[..a] + text[a..b] + Cut(text, a, b)[a..]
  {
  }

  /**
   * When a text with "<li>" has a first list block with non-empty content,
   * the shown text is the message with exactly that block cut out, from its
   * "<ul" to the end of its "</ul>".
   */
  lemma ProcessedText(m: Message)
    requires Contains(m.text, "<li>")
    requires FirstList(m.text).Some? && FirstList(m.text).value.open + 1 < FirstList(m.text).value.close
    ensures var l := FirstList(m.text).value;
      && l.start + 3 <= l.open < l.close && l.close + 5 <= |m.text|
      && |BubbleOf(m).shown| == |m.text| - (l.close + 5 - l.start)
      && m.text == BubbleOf(m).shown[..l.start] + m.text[l.start..l.close + 5] + BubbleOf(m).shown[l.start..]
  {
    FirstListShape(m.text);
    var l := FirstList(m.text).value;
    assert BlockToCut(m.text) == Some(l);
    CutSpec(m.text, l.start, l.close + 5);
  }

  /** ... and the items shown are those of the block's content. */
  lemma ProcessedItems(m: Message)
    requires Contains(m.text, "<li>")
    requires FirstList(m.text).Some? && FirstList(m.text).value.open + 1 < FirstList(m.text).value.close
    ensures var l := FirstList(m.text).value;
      && l.open + 1 <= l.close <= |m.text|
      && BubbleOf(m).items == ListItems(m.text[l.open + 1..l.close])
  {
    FirstListShape(m.text);
    var l := FirstList(m.text).value;
    assert BlockToCut(m.text) == Some(l);
  }

  /** A text with "<li>" but no list block, or an empty one, is shown unchanged and without items. */
  lemma UnprocessedBubble(m: Message)
    requires FirstList(m.text).None? || FirstList(m.text).value.open + 1 == FirstList(m.text).value.close
    ensures BubbleOf(m) == Bubble(m.sender, m.text, [])
  {
    assert BlockToCut(m.text) == None;
  }

  /** The greeting bubble of the mood-selection screen, character for character. */
  const Greeting: string := "Hello! \U{F0}\U{178}\U{2018}\U{2039} How are you feeling today?"

  /** What the container shows. */
  datatype Screen =
    | MoodSelection(greeting: Bubble)
    | Conversation(bubbles: seq<Bubble>, finalOptions: bool)

  /**
   * The mood selector until the session starts; after that, one bubble per
   * message in message order, with the final options when they apply.
   */
  function ScreenOf(isSessionStarted: bool, currentStep: int, messages: seq<Message>): (r: Screen)
    ensures r.MoodSelection? <==> !isSessionStarted
    ensures r.Conversation? ==> |r.bubbles| == |messages|
    ensures r.Conversation? ==> forall i :: 0 <= i < |messages| ==> r.bubbles[i] == BubbleOf(messages[i])
    ensures r.Conversation? ==> r.finalOptions == ShowFinalOptions(currentStep, messages)
  {
    if !isSessionStarted then MoodSelection(BubbleOf(Message(System, Greeting)))
    else Conversation(seq(|messages|, i requires 0 <= i < |messages| => BubbleOf(messages[i])),
                      ShowFinalOptions(currentStep, messages))
  }
}
