// The linked-context worklist: a first-in first-out search over a graph of files with a depth cut-off,
// deduplication by path and by content, and document and byte limits.
module LinkedContext {
  import opened Basics

  /** What the resolver reads: files do not change during one call, and a digest stands for its content. */
  datatype Project = Project(
    candidates: string -> seq<string>,
    text: string -> Option<string>,
    links: string -> seq<string>,
    size: string -> nat,
    excluded: string -> bool,
    canonical: string -> bool,
    current: string -> bool)

  datatype Limits = Limits(maxDepth: int, maxDocuments: int, maxBytes: int)

  datatype Item = Item(ref: string, depth: nat, required: bool)

  datatype Document = Document(ref: string, path: string, content: string, required: bool, canonical: bool,
      current: bool)

  datatype Problem = LinkNotFound(ref: string) | LinkAmbiguous(ref: string) | ReadFailed(ref: string)
                   | DocumentLimit(ref: string) | ByteLimit(ref: string)

  datatype Packet = Packet(documents: seq<Document>, references: map<string, seq<string>>)

  // ---------------------------------------------------------------- what is reachable

  /** The content a reference leads to: exactly one candidate file, and a readable one. */
  function Resolution(p: Project, ref: string): Option<string> {
    if p.excluded(ref) || |p.candidates(ref)| != 1 then None else p.text(p.candidates(ref)[0])
  }

  predicate LinksTo(p: Project, from: string, to: string) {
    exists ref :: ref in p.links(from) && Resolution(p, ref) == Some(to)
  }

  predicate Seeded(p: Project, seeds: seq<Item>, content: string) {
    exists s :: s in seeds && Resolution(p, s.ref) == Some(content)
  }

  /** Reachable from a seed link over at most `k` further links. */
  ghost predicate Reached(p: Project, seeds: seq<Item>, content: string, k: int)
    decreases if k < 0 then 0 else k + 1
  {
    k >= 0 && (Seeded(p, seeds, content) || exists b :: LinksTo(p, b, content) && Reached(p, seeds, b, k - 1))
  }

  /** A reference the search comes across at this depth: a seed, or a link of a content reached before. */
  ghost predicate Offered(p: Project, seeds: seq<Item>, x: Item) {
    || x in seeds
    || (x.depth > 0 && !x.required && exists b :: Reached(p, seeds, b, x.depth - 1) && x.ref in p.links(b))
  }

  predicate Visible(p: Project, limits: Limits, x: Item) {
    !p.excluded(x.ref) && x.depth <= limits.maxDepth
  }

  /** A visible reference that cannot be served: a required one without a file, an ambiguous one, or one
      whose file cannot be read. */
  predicate Faulty(p: Project, limits: Limits, x: Item) {
    && Visible(p, limits, x)
    && (if |p.candidates(x.ref)| == 0 then x.required
        else |p.candidates(x.ref)| > 1 || p.text(p.candidates(x.ref)[0]).None?)
  }

  function Contents(docs: seq<Document>): seq<string> {
    seq(|docs|, i requires 0 <= i < |docs| => docs[i].content)
  }

  function Bytes(p: Project, contents: seq<string>): nat {
    if contents == [] then 0 else Bytes(p, contents[..|contents| - 1]) + p.size(contents[|contents| - 1])
  }

  predicate WithinLimits(p: Project, limits: Limits, contents: seq<string>) {
    contents != [] ==> |contents| <= limits.maxDocuments && Bytes(p, contents) <= limits.maxBytes
  }

  /** Too many contents, or too large ones, are within reach. */
  ghost predicate Overflowing(p: Project, limits: Limits, seeds: seq<Item>) {
    exists contents ::
      && Distinct(contents) && !WithinLimits(p, limits, contents)
      && forall c :: c in contents ==> Reached(p, seeds, c, limits.maxDepth)
  }

  ghost predicate FaultyOffer(p: Project, limits: Limits, seeds: seq<Item>) {
    exists x :: Offered(p, seeds, x) && Faulty(p, limits, x)
  }

  lemma {:induction false} ReachedLater(p: Project, seeds: seq<Item>, content: string, k: int, m: int)
    requires Reached(p, seeds, content, k) && k <= m
    ensures Reached(p, seeds, content, m)
    decreases if k < 0 then 0 else k + 1
  {
    if !Seeded(p, seeds, content) {
      var b :| LinksTo(p, b, content) && Reached(p, seeds, b, k - 1);
      ReachedLater(p, seeds, b, k - 1, m - 1);
    }
  }

  lemma OfferLeadsToReach(p: Project, seeds: seq<Item>, x: Item, content: string)
    requires Offered(p, seeds, x) && Resolution(p, x.ref) == Some(content)
    ensures Reached(p, seeds, content, x.depth)
  {
    if x in seeds {
      assert Seeded(p, seeds, content);
    } else {
      var b :| Reached(p, seeds, b, x.depth - 1) && x.ref in p.links(b);
      assert LinksTo(p, b, content);
    }
  }

  // ---------------------------------------------------------------- the state of the search

  function AddReference(references: map<string, seq<string>>, content: string, ref: string): map<string, seq<string>> {
    if content !in references then references[content := [ref]]
    else if ref in references[content] then references
    else references[content := references[content] + [ref]]
  }

  function MarkDocument(p: Project, d: Document, ref: string, required: bool): Document {
    d.(required := d.required || required, canonical := d.canonical || p.canonical(ref),
       current := d.current || p.current(ref))
  }

  function MarkAll(p: Project, docs: seq<Document>, content: string, ref: string, required: bool): (r: seq<Document>)
    ensures |r| == |docs|
    ensures forall i :: 0 <= i < |docs| ==>
              r[i] == if docs[i].content == content then MarkDocument(p, docs[i], ref, required) else docs[i]
  {
    seq(|docs|, i requires 0 <= i < |docs| =>
          if docs[i].content == content then MarkDocument(p, docs[i], ref, required) else docs[i])
  }

  /** `remember_reference`. */
  method Remember(p: Project, docs: seq<Document>, references: map<string, seq<string>>, content: string,
                  ref: string, required: bool)
    returns (after: seq<Document>, remembered: map<string, seq<string>>, found: bool)
    requires Distinct(Contents(docs))
    ensures remembered == AddReference(references, content, ref)
    ensures found <==> content in Contents(docs)
    ensures after == MarkAll(p, docs, content, ref, required)
    ensures !found ==> after == docs
  {
    remembered := AddReference(references, content, ref);
    after, found := docs, false;
    for i := 0 to |docs|
      invariant forall k :: 0 <= k < i ==> docs[k].content != content
    {
      if docs[i].content == content {
        assert Contents(docs)[i] == content;
        forall k | 0 <= k < |docs| && k != i
          ensures docs[k].content != content
        {
          assert Contents(docs)[k] == docs[k].content;
        }
        after := docs[i := MarkDocument(p, docs[i], ref, required)];
        assert after == MarkAll(p, docs, content, ref, required);
        found := true;
        return;
      }
    }
  }

  // ---------------------------------------------------------------- invariants of the search

  /** The variables of the loop; `depths` and `level` only serve the proof: the depth at which each document
      was added, and the depth reached. */
  datatype Search = Search(docs: seq<Document>, depths: seq<nat>, references: map<string, seq<string>>,
      queue: seq<Item>, level: nat)

  predicate RequiredSeed(p: Project, seeds: seq<Item>, content: string) {
    exists s :: s in seeds && s.required && Resolution(p, s.ref) == Some(content)
  }

  ghost predicate Processed(p: Project, limits: Limits, seeds: seq<Item>, ref: string) {
    exists x :: Offered(p, seeds, x) && Visible(p, limits, x) && x.ref == ref
  }

  ghost predicate Sound(p: Project, limits: Limits, seeds: seq<Item>, s: Search) {
    && |s.depths| == |s.docs|
    && (forall i :: 0 <= i < |s.docs| ==>
       s.depths[i] <= limits.maxDepth && Reached(p, seeds, s.docs[i].content, s.depths[i]))
    && (forall i :: 0 <= i < |s.docs| && s.docs[i].required ==> RequiredSeed(p, seeds, s.docs[i].content))
    && (forall x :: x in s.queue ==> Offered(p, seeds, x))
    && ReferencesSound(p, limits, seeds, s.references)
  }

  ghost predicate ReferencesSound(p: Project, limits: Limits, seeds: seq<Item>, references: map<string, seq<string>>) {
    forall c :: c in references ==> forall ref :: ref in references[c] ==>
      Resolution(p, ref) == Some(c) && Processed(p, limits, seeds, ref)
  }

  predicate AnyRef(f: string -> bool, refs: seq<string>) {
    exists r :: r in refs && f(r)
  }

  ghost predicate Shaped(p: Project, s: Search) {
    && Distinct(Contents(s.docs))
    && (forall c :: c in s.references <==> c in Contents(s.docs))
    && (forall c :: c in s.references ==> Distinct(s.references[c]))
    && (forall i :: 0 <= i < |s.docs| && s.docs[i].content in s.references ==>
       Flagged(p, s.docs[i], s.references[s.docs[i].content]))
  }

  predicate Flagged(p: Project, d: Document, refs: seq<string>) {
    && (d.canonical <==> AnyRef(p.canonical, refs))
    && (d.current <==> AnyRef(p.current, refs))
  }

  predicate Ordered(s: Search) {
    && (forall i :: 0 <= i < |s.depths| ==> s.depths[i] <= s.level)
    && (forall i :: 0 <= i < |s.queue| ==> s.level <= s.queue[i].depth <= s.level + 1)
    && (forall i, k :: 0 <= i < k < |s.queue| ==> s.queue[i].depth <= s.queue[k].depth)
  }

  predicate Holding(s: Search, i: nat, x: Item, content: string) {
    && i < |s.docs| && i < |s.depths| && s.docs[i].content == content && s.depths[i] <= x.depth
    && (x.required ==> s.docs[i].required)
  }

  ghost predicate Kept(s: Search, x: Item, content: string) {
    content in s.references && x.ref in s.references[content] && exists i :: Holding(s, i, x, content)
  }

  /** A reference that has been dealt with: not a fault, and if it leads anywhere, its content is among the
      documents, at no greater depth, and lists the reference. */
  ghost predicate Served(p: Project, limits: Limits, s: Search, x: Item) {
    Visible(p, limits, x) ==>
      !Faulty(p, limits, x) && (Resolution(p, x.ref).Some? ==> Kept(s, x, Resolution(p, x.ref).value))
  }

  ghost predicate Done(p: Project, limits: Limits, s: Search, x: Item) {
    x in s.queue || Served(p, limits, s, x)
  }

  ghost predicate LinksDone(p: Project, limits: Limits, s: Search, i: nat)
    requires i < |s.docs| && i < |s.depths|
  {
    forall ref :: ref in p.links(s.docs[i].content) ==> Done(p, limits, s, Item(ref, s.depths[i] + 1, false))
  }

  ghost predicate Complete(p: Project, limits: Limits, seeds: seq<Item>, s: Search) {
    && |s.depths| == |s.docs|
    && (forall x :: x in seeds ==> Done(p, limits, s, x))
    && (forall i :: 0 <= i < |s.docs| ==> LinksDone(p, limits, s, i))
  }

  // ---------------------------------------------------------------- the moves of the search

  function Popped(s: Search): Search
    requires s.queue != []
  {
    s.(queue := s.queue[1..], level := s.queue[0].depth)
  }

  function Remembered(p: Project, s: Search, x: Item, content: string): Search {
    s.(docs := MarkAll(p, s.docs, content, x.ref, x.required), references := AddReference(s.references, content, x.ref))
  }

  function NewDocument(p: Project, x: Item, path: string, content: string): Document {
    Document(x.ref, path, content, x.required, p.canonical(x.ref), p.current(x.ref))
  }

  function LinkItems(links: seq<string>, depth: nat): (r: seq<Item>)
    ensures |r| == |links| && forall i :: 0 <= i < |r| ==> r[i] == Item(links[i], depth, false)
  {
    seq(|links|, i requires 0 <= i < |links| => Item(links[i], depth, false))
  }

  function Appended(p: Project, s: Search, x: Item, path: string, content: string): Search {
    Search(s.docs + [NewDocument(p, x, path, content)], s.depths + [x.depth],
        AddReference(s.references, content, x.ref),
           s.queue + LinkItems(p.links(content), x.depth + 1), s.level)
  }

  /** Nothing found is lost: documents stay at their depth, marks and references are only added. */
  ghost predicate Grows(s: Search, t: Search) {
    && |s.docs| <= |t.docs| && |s.depths| == |s.docs| && |t.depths| == |t.docs|
    && (forall i :: 0 <= i < |s.docs| ==>
          t.docs[i].content == s.docs[i].content && t.depths[i] == s.depths[i]
              && (s.docs[i].required ==> t.docs[i].required))
    && (forall c :: c in s.references ==> c in t.references && forall ref :: ref in s.references[c] ==>
       ref in t.references[c])
  }

  lemma ServedStays(p: Project, limits: Limits, s: Search, t: Search, x: Item)
    requires Grows(s, t) && Served(p, limits, s, x)
    ensures Served(p, limits, t, x)
  {
    if Visible(p, limits, x) && Resolution(p, x.ref).Some? {
      var c := Resolution(p, x.ref).value;
      var i :| Holding(s, i, x, c);
      assert Holding(t, i, x, c);
    }
  }

  /** After one item has been served, everything is still done. */
  lemma DoneStays(p: Project, limits: Limits, s: Search, t: Search, x: Item, y: Item)
    requires Grows(s, t) && Done(p, limits, s, y)
    requires forall z :: z in s.queue ==> z == x || z in t.queue
    requires Served(p, limits, t, x)
    ensures Done(p, limits, t, y)
  {
    if y in s.queue {
    } else {
      ServedStays(p, limits, s, t, y);
    }
  }

  lemma CompleteStays(p: Project, limits: Limits, seeds: seq<Item>, s: Search, t: Search, x: Item)
    requires Complete(p, limits, seeds, s) && Grows(s, t)
    requires forall z :: z in s.queue ==> z == x || z in t.queue
    requires Served(p, limits, t, x)
    requires forall i :: |s.docs| <= i < |t.docs| ==> LinksDone(p, limits, t, i)
    ensures Complete(p, limits, seeds, t)
  {
    forall y | y in seeds
      ensures Done(p, limits, t, y)
    {
      DoneStays(p, limits, s, t, x, y);
    }
    forall i | 0 <= i < |s.docs|
      ensures LinksDone(p, limits, t, i)
    {
      forall ref | ref in p.links(t.docs[i].content)
        ensures Done(p, limits, t, Item(ref, t.depths[i] + 1, false))
      {
        assert LinksDone(p, limits, s, i);
        DoneStays(p, limits, s, t, x, Item(ref, t.depths[i] + 1, false));
      }
    }
  }

  lemma PopQueue(s: Search)
    requires s.queue != []
    ensures forall z :: z in s.queue <==> z == s.queue[0] || z in s.queue[1..]
  {
    assert s.queue == [s.queue[0]] + s.queue[1..];
  }

  // ---- an item that leads nowhere

  lemma Skips(p: Project, limits: Limits, seeds: seq<Item>, s: Search)
    requires Sound(p, limits, seeds, s) && Shaped(p, s) && Ordered(s) && s.queue != []
    ensures Sound(p, limits, seeds, Popped(s)) && Shaped(p, Popped(s)) && Ordered(Popped(s))
    ensures Offered(p, seeds, s.queue[0])
    ensures Complete(p, limits, seeds, s) && Served(p, limits, Popped(s), s.queue[0]) ==>
              Complete(p, limits, seeds, Popped(s))
  {
    PopQueue(s);
    if Complete(p, limits, seeds, s) && Served(p, limits, Popped(s), s.queue[0]) {
      CompleteStays(p, limits, seeds, s, Popped(s), s.queue[0]);
    }
  }

  // ---- an item whose content is already there

  lemma SameContents(p: Project, s: Search, x: Item, content: string)
    ensures Contents(Remembered(p, s, x, content).docs) == Contents(s.docs)
  {
  }

  lemma AddReferenceMembers(references: map<string, seq<string>>, content: string, ref: string)
    ensures var after := AddReference(references, content, ref);
            && after.Keys == references.Keys + {content}
            && (forall c :: c in references && c != content ==> after[c] == references[c])
            && (forall r :: r in after[content] <==> r == ref || (content in references && r in references[content]))
            && ((content in references ==> Distinct(references[content])) ==> Distinct(after[content]))
  {
  }

  lemma MarkKeepsFlags(p: Project, d: Document, refs: seq<string>, after: seq<string>, ref: string, required: bool)
    requires Flagged(p, d, refs)
    requires forall r :: r in after <==> r == ref || r in refs
    ensures Flagged(p, MarkDocument(p, d, ref, required), after)
  {
  }

  lemma RememberedShaped(p: Project, s: Search, x: Item, content: string)
    requires Shaped(p, s) && content in Contents(s.docs)
    ensures Shaped(p, Remembered(p, s, x, content))
  {
    var t := Remembered(p, s, x, content);
    SameContents(p, s, x, content);
    AddReferenceMembers(s.references, content, x.ref);
    forall i | 0 <= i < |t.docs| && t.docs[i].content in t.references
      ensures Flagged(p, t.docs[i], t.references[t.docs[i].content])
    {
      assert Contents(s.docs)[i] == s.docs[i].content;
      if s.docs[i].content == content {
        MarkKeepsFlags(p, s.docs[i], s.references[content], t.references[content], x.ref, x.required);
      }
    }
  }

  lemma ReferenceSound(p: Project, limits: Limits, seeds: seq<Item>, s: Search, x: Item, content: string)
    requires Sound(p, limits, seeds, s)
    requires Offered(p, seeds, x) && Visible(p, limits, x) && Resolution(p, x.ref) == Some(content)
    ensures ReferencesSound(p, limits, seeds, AddReference(s.references, content, x.ref))
  {
    AddReferenceMembers(s.references, content, x.ref);
    assert Processed(p, limits, seeds, x.ref);
  }

  lemma RememberedSound(p: Project, limits: Limits, seeds: seq<Item>, s: Search, x: Item, content: string)
    requires Sound(p, limits, seeds, s) && (forall z :: z in seeds ==> z.depth == 0)
    requires Offered(p, seeds, x) && Visible(p, limits, x) && Resolution(p, x.ref) == Some(content)
    ensures Sound(p, limits, seeds, Remembered(p, s, x, content))
  {
    ReferenceSound(p, limits, seeds, s, x, content);
    assert x.required ==> RequiredSeed(p, seeds, content);
  }

  lemma RememberedServes(p: Project, limits: Limits, s: Search, x: Item, content: string)
    requires |s.depths| == |s.docs| && content in Contents(s.docs) && Resolution(p, x.ref) == Some(content)
    requires forall i :: 0 <= i < |s.depths| ==> s.depths[i] <= x.depth
    ensures Served(p, limits, Remembered(p, s, x, content), x) && Grows(s, Remembered(p, s, x, content))
  {
    AddReferenceMembers(s.references, content, x.ref);
    var i :| 0 <= i < |s.docs| && Contents(s.docs)[i] == content;
    assert Holding(Remembered(p, s, x, content), i, x, content);
  }

  lemma Remembers(p: Project, limits: Limits, seeds: seq<Item>, s: Search, content: string)
    requires Sound(p, limits, seeds, s) && Shaped(p, s) && Ordered(s) && s.queue != []
    requires forall z :: z in seeds ==> z.depth == 0
    requires Visible(p, limits, s.queue[0]) && Resolution(p, s.queue[0].ref) == Some(content)
              && content in Contents(s.docs)
    ensures var t := Remembered(p, Popped(s), s.queue[0], content);
            && Sound(p, limits, seeds, t) && Shaped(p, t) && Ordered(t) && Contents(t.docs) == Contents(s.docs)
            && (Complete(p, limits, seeds, s) ==> Complete(p, limits, seeds, t))
  {
    var x := s.queue[0];
    Skips(p, limits, seeds, s);
    RememberedShaped(p, Popped(s), x, content);
    RememberedSound(p, limits, seeds, Popped(s), x, content);
    SameContents(p, Popped(s), x, content);
    if Complete(p, limits, seeds, s) {
      RememberedComplete(p, limits, seeds, s, content);
    }
  }

  lemma RememberedComplete(p: Project, limits: Limits, seeds: seq<Item>, s: Search, content: string)
    requires Complete(p, limits, seeds, s) && Ordered(s) && s.queue != []
    requires Resolution(p, s.queue[0].ref) == Some(content) && content in Contents(s.docs)
    ensures Complete(p, limits, seeds, Remembered(p, Popped(s), s.queue[0], content))
  {
    var x := s.queue[0];
    RememberedServes(p, limits, Popped(s), x, content);
    PopQueue(s);
    CompleteStays(p, limits, seeds, s, Remembered(p, Popped(s), x, content), x);
  }

  // ---- an item that brings a new document

  lemma AppendedShaped(p: Project, s: Search, x: Item, path: string, content: string)
    requires Shaped(p, s) && content !in Contents(s.docs)
    ensures Shaped(p, Appended(p, s, x, path, content))
    ensures Contents(Appended(p, s, x, path, content).docs) == Contents(s.docs) + [content]
  {
    var t := Appended(p, s, x, path, content);
    AddReferenceMembers(s.references, content, x.ref);
    assert Contents(t.docs) == Contents(s.docs) + [content];
    assert t.references[content] == [x.ref];
    forall i | 0 <= i < |t.docs| && t.docs[i].content in t.references
      ensures Flagged(p, t.docs[i], t.references[t.docs[i].content])
    {
      if i < |s.docs| {
        assert Contents(s.docs)[i] == s.docs[i].content;
      } else {
        assert x.ref in [x.ref];
      }
    }
  }

  lemma LinksOffered(p: Project, seeds: seq<Item>, x: Item, content: string)
    requires Reached(p, seeds, content, x.depth)
    ensures forall y :: y in LinkItems(p.links(content), x.depth + 1) ==> Offered(p, seeds, y)
  {
  }

  lemma AppendedSound(p: Project, limits: Limits, seeds: seq<Item>, s: Search, x: Item, path: string, content: string)
    requires Sound(p, limits, seeds, s) && (forall z :: z in seeds ==> z.depth == 0)
    requires Offered(p, seeds, x) && Visible(p, limits, x) && Resolution(p, x.ref) == Some(content)
    ensures Sound(p, limits, seeds, Appended(p, s, x, path, content))
  {
    ReferenceSound(p, limits, seeds, s, x, content);
    OfferLeadsToReach(p, seeds, x, content);
    LinksOffered(p, seeds, x, content);
    assert x.required ==> RequiredSeed(p, seeds, content);
  }

  lemma AppendedServes(p: Project, limits: Limits, s: Search, x: Item, path: string, content: string)
    requires |s.depths| == |s.docs| && Resolution(p, x.ref) == Some(content)
    ensures var t := Appended(p, s, x, path, content);
            Served(p, limits, t, x) && Grows(s, t) && LinksDone(p, limits, t, |s.docs|)
  {
    var t := Appended(p, s, x, path, content);
    AddReferenceMembers(s.references, content, x.ref);
    assert Holding(t, |s.docs|, x, content);
    forall ref | ref in p.links(content)
      ensures Item(ref, x.depth + 1, false) in t.queue
    {
      var i :| 0 <= i < |p.links(content)| && p.links(content)[i] == ref;
      assert t.queue[|s.queue| + i] == Item(ref, x.depth + 1, false);
    }
  }

  lemma Appends(p: Project, limits: Limits, seeds: seq<Item>, s: Search, path: string, content: string)
    requires Sound(p, limits, seeds, s) && Shaped(p, s) && Ordered(s) && s.queue != []
    requires forall z :: z in seeds ==> z.depth == 0
    requires Visible(p, limits, s.queue[0]) && Resolution(p, s.queue[0].ref) == Some(content)
              && content !in Contents(s.docs)
    ensures var t := Appended(p, Popped(s), s.queue[0], path, content);
            && Sound(p, limits, seeds, t) && Shaped(p, t) && Ordered(t)
               && Contents(t.docs) == Contents(s.docs) + [content]
            && (Complete(p, limits, seeds, s) ==> Complete(p, limits, seeds, t))
  {
    var x := s.queue[0];
    Skips(p, limits, seeds, s);
    AppendedShaped(p, Popped(s), x, path, content);
    AppendedSound(p, limits, seeds, Popped(s), x, path, content);
    AppendedOrdered(p, Popped(s), x, path, content);
    if Complete(p, limits, seeds, s) {
      AppendedComplete(p, limits, seeds, s, path, content);
    }
  }

  lemma AppendedOrdered(p: Project, s: Search, x: Item, path: string, content: string)
    requires Ordered(s) && s.level == x.depth
    ensures Ordered(Appended(p, s, x, path, content))
  {
  }

  lemma AppendedComplete(p: Project, limits: Limits, seeds: seq<Item>, s: Search, path: string, content: string)
    requires Complete(p, limits, seeds, s) && s.queue != [] && Resolution(p, s.queue[0].ref) == Some(content)
    ensures Complete(p, limits, seeds, Appended(p, Popped(s), s.queue[0], path, content))
  {
    var x := s.queue[0];
    AppendedServes(p, limits, Popped(s), x, path, content);
    PopQueue(s);
    CompleteStays(p, limits, seeds, s, Appended(p, Popped(s), x, path, content), x);
  }

  // ---------------------------------------------------------------- when the queue is empty

  ghost predicate Finished(p: Project, limits: Limits, seeds: seq<Item>, s: Search) {
    && Sound(p, limits, seeds, s) && Shaped(p, s) && Complete(p, limits, seeds, s) && s.queue == []
    && (forall z :: z in seeds ==> z.depth == 0)
  }

  lemma FinishedSeed(p: Project, limits: Limits, seeds: seq<Item>, s: Search, z: Item)
    requires Complete(p, limits, seeds, s) && s.queue == [] && z in seeds
    ensures Served(p, limits, s, z)
  {
    assert Done(p, limits, s, z);
  }

  lemma FinishedLink(p: Project, limits: Limits, seeds: seq<Item>, s: Search, i: nat, ref: string)
    requires Complete(p, limits, seeds, s) && s.queue == [] && i < |s.docs| && ref in p.links(s.docs[i].content)
    ensures |s.depths| == |s.docs| && Served(p, limits, s, Item(ref, s.depths[i] + 1, false))
  {
    assert LinksDone(p, limits, s, i);
    assert Done(p, limits, s, Item(ref, s.depths[i] + 1, false));
  }

  lemma ServedHolds(p: Project, limits: Limits, s: Search, x: Item, content: string) returns (i: nat)
    requires Served(p, limits, s, x) && x.depth <= limits.maxDepth && Resolution(p, x.ref) == Some(content)
    ensures Holding(s, i, x, content)
  {
    i :| Holding(s, i, x, content);
  }

  /** First-in first-out order reaches every content at its least depth, so the cut-off loses nothing. */
  lemma {:induction false} ReachedIsFound(p: Project, limits: Limits, seeds: seq<Item>, s: Search, content: string,
                                          k: int) returns (i: nat)
    requires Finished(p, limits, seeds, s) && Reached(p, seeds, content, k) && k <= limits.maxDepth
    ensures i < |s.docs| && i < |s.depths| && s.docs[i].content == content && s.depths[i] <= k
    decreases if k < 0 then 0 else k + 1
  {
    if Seeded(p, seeds, content) {
      var z :| z in seeds && Resolution(p, z.ref) == Some(content);
      FinishedSeed(p, limits, seeds, s, z);
      i := ServedHolds(p, limits, s, z, content);
    } else {
      var b :| LinksTo(p, b, content) && Reached(p, seeds, b, k - 1);
      var j := ReachedIsFound(p, limits, seeds, s, b, k - 1);
      var ref :| ref in p.links(b) && Resolution(p, ref) == Some(content);
      FinishedLink(p, limits, seeds, s, j, ref);
      i := ServedHolds(p, limits, s, Item(ref, s.depths[j] + 1, false), content);
    }
  }

  lemma ServedDeeper(p: Project, limits: Limits, s: Search, x: Item, y: Item)
    requires Served(p, limits, s, x) && y == x.(depth := y.depth) && x.depth <= y.depth <= limits.maxDepth
    ensures Served(p, limits, s, y)
  {
    if Visible(p, limits, y) && Resolution(p, y.ref).Some? {
      var i := ServedHolds(p, limits, s, x, Resolution(p, x.ref).value);
      assert Holding(s, i, y, Resolution(p, y.ref).value);
    }
  }

  /** Everything offered within the cut-off has been served. */
  lemma OfferedIsServed(p: Project, limits: Limits, seeds: seq<Item>, s: Search, x: Item)
    requires Finished(p, limits, seeds, s) && Offered(p, seeds, x) && Visible(p, limits, x)
    ensures Served(p, limits, s, x)
  {
    if x in seeds {
      FinishedSeed(p, limits, seeds, s, x);
    } else {
      var b :| Reached(p, seeds, b, x.depth - 1) && x.ref in p.links(b);
      var i := ReachedIsFound(p, limits, seeds, s, b, x.depth - 1);
      FinishedLink(p, limits, seeds, s, i, x.ref);
      ServedDeeper(p, limits, s, Item(x.ref, s.depths[i] + 1, false), x);
    }
  }

  lemma {:induction false} FitsWithin(p: Project, few: seq<string>, many: seq<string>)
    requires Distinct(few) && forall c :: c in few ==> c in many
    ensures |few| <= |many| && Bytes(p, few) <= Bytes(p, many)
  {
    if few != [] {
      var n := |few| - 1;
      assert few[n] in few;
      var i :| 0 <= i < |many| && many[i] == few[n];
      var rest := many[..i] + many[i + 1..];
      DropOne(p, many, i);
      forall c | c in few[..n]
        ensures c in rest
      {
        assert c in few;
        var j :| 0 <= j < |many| && many[j] == c;
        assert j != i;
        assert rest[if j < i then j else j - 1] == c;
      }
      FitsWithin(p, few[..n], rest);
    }
  }

  lemma {:induction false} DropOne(p: Project, contents: seq<string>, i: nat)
    requires i < |contents|
    ensures Bytes(p, contents) == Bytes(p, contents[..i] + contents[i + 1..]) + p.size(contents[i])
  {
    var n := |contents| - 1;
    if i == n {
      assert contents[..i] + contents[i + 1..] == contents[..n];
    } else {
      DropOne(p, contents[..n], i);
      var rest := contents[..i] + contents[i + 1..];
      assert rest[..|rest| - 1] == contents[..n][..i] + contents[..n][i + 1..];
    }
  }

  lemma BytesSnoc(p: Project, contents: seq<string>, c: string)
    ensures Bytes(p, contents + [c]) == Bytes(p, contents) + p.size(c)
  {
    assert (contents + [c])[..|contents|] == contents;
  }

  /** What an accepted packet promises. */
  ghost predicate Faithful(p: Project, limits: Limits, seeds: seq<Item>, packet: Packet) {
    && Distinct(Contents(packet.documents))
    && WithinLimits(p, limits, Contents(packet.documents))
    && (forall c :: c in Contents(packet.documents) <==> Reached(p, seeds, c, limits.maxDepth))
    && (forall c :: c in packet.references <==> c in Contents(packet.documents))
    && (forall c :: c in packet.references ==> Distinct(packet.references[c]))
    && (forall c, ref :: c in packet.references ==>
          (ref in packet.references[c] <==> Resolution(p, ref) == Some(c) && Processed(p, limits, seeds, ref)))
    && (forall d :: d in packet.documents ==>
          && (d.required <==> RequiredSeed(p, seeds, d.content))
          && d.content in packet.references && Flagged(p, d, packet.references[d.content]))
  }

  lemma FinishedContents(p: Project, limits: Limits, seeds: seq<Item>, s: Search, c: string)
    requires Finished(p, limits, seeds, s)
    ensures c in Contents(s.docs) <==> Reached(p, seeds, c, limits.maxDepth)
  {
    if c in Contents(s.docs) {
      var i :| 0 <= i < |s.docs| && Contents(s.docs)[i] == c;
      ReachedLater(p, seeds, c, s.depths[i], limits.maxDepth);
    }
    if Reached(p, seeds, c, limits.maxDepth) {
      var i := ReachedIsFound(p, limits, seeds, s, c, limits.maxDepth);
      assert Contents(s.docs)[i] == c;
    }
  }

  lemma FinishedReferences(p: Project, limits: Limits, seeds: seq<Item>, s: Search, c: string, ref: string)
    requires Finished(p, limits, seeds, s) && c in s.references
    ensures ref in s.references[c] <==> Resolution(p, ref) == Some(c) && Processed(p, limits, seeds, ref)
  {
    if Resolution(p, ref) == Some(c) && Processed(p, limits, seeds, ref) {
      var x :| Offered(p, seeds, x) && Visible(p, limits, x) && x.ref == ref;
      OfferedIsServed(p, limits, seeds, s, x);
    }
  }

  lemma FinishedRequired(p: Project, limits: Limits, seeds: seq<Item>, s: Search, i: nat)
    requires Finished(p, limits, seeds, s) && i < |s.docs|
    ensures s.docs[i].required <==> RequiredSeed(p, seeds, s.docs[i].content)
  {
    if RequiredSeed(p, seeds, s.docs[i].content) {
      RequiredIsMarked(p, limits, seeds, s, i);
    }
  }

  lemma RequiredIsMarked(p: Project, limits: Limits, seeds: seq<Item>, s: Search, i: nat)
    requires Complete(p, limits, seeds, s) && s.queue == [] && Distinct(Contents(s.docs)) && 0 <= limits.maxDepth
    requires i < |s.docs| && RequiredSeed(p, seeds, s.docs[i].content) && forall z :: z in seeds ==> z.depth == 0
    ensures s.docs[i].required
  {
    var z :| z in seeds && z.required && Resolution(p, z.ref) == Some(s.docs[i].content);
    FinishedSeed(p, limits, seeds, s, z);
    var j := ServedHolds(p, limits, s, z, s.docs[i].content);
    assert Contents(s.docs)[i] == Contents(s.docs)[j];
  }

  lemma FinishedIsFaithful(p: Project, limits: Limits, seeds: seq<Item>, s: Search)
    requires Finished(p, limits, seeds, s)
    requires WithinLimits(p, limits, Contents(s.docs))
    ensures Faithful(p, limits, seeds, Packet(s.docs, s.references))
  {
    forall c
      ensures c in Contents(s.docs) <==> Reached(p, seeds, c, limits.maxDepth)
    {
      FinishedContents(p, limits, seeds, s, c);
    }
    forall c, ref | c in s.references
      ensures ref in s.references[c] <==> Resolution(p, ref) == Some(c) && Processed(p, limits, seeds, ref)
    {
      FinishedReferences(p, limits, seeds, s, c, ref);
    }
    forall d | d in s.docs
      ensures (d.required <==> RequiredSeed(p, seeds, d.content))
      ensures d.content in s.references && Flagged(p, d, s.references[d.content])
    {
      var i :| 0 <= i < |s.docs| && s.docs[i] == d;
      FinishedRequired(p, limits, seeds, s, i);
      assert Contents(s.docs)[i] == d.content;
    }
  }

  lemma FinishedIsFaultless(p: Project, limits: Limits, seeds: seq<Item>, s: Search)
    requires Finished(p, limits, seeds, s)
    requires WithinLimits(p, limits, Contents(s.docs))
    ensures !FaultyOffer(p, limits, seeds) && !Overflowing(p, limits, seeds)
  {
    forall x | Offered(p, seeds, x)
      ensures !Faulty(p, limits, x)
    {
      if Visible(p, limits, x) {
        OfferedIsServed(p, limits, seeds, s, x);
      }
    }
    forall contents | Distinct(contents) && forall c :: c in contents ==> Reached(p, seeds, c, limits.maxDepth)
      ensures WithinLimits(p, limits, contents)
    {
      forall c | c in contents
        ensures c in Contents(s.docs)
      {
        FinishedContents(p, limits, seeds, s, c);
      }
      FitsWithin(p, contents, Contents(s.docs));
    }
  }

  lemma OverflowsWith(p: Project, limits: Limits, seeds: seq<Item>, s: Search, x: Item, content: string)
    requires Sound(p, limits, seeds, s) && Shaped(p, s) && content !in Contents(s.docs)
    requires Offered(p, seeds, x) && Visible(p, limits, x) && Resolution(p, x.ref) == Some(content)
    requires |s.docs| >= limits.maxDocuments || Bytes(p, Contents(s.docs)) + p.size(content) > limits.maxBytes
    ensures Overflowing(p, limits, seeds)
  {
    var contents := Contents(s.docs) + [content];
    BytesSnoc(p, Contents(s.docs), content);
    assert |contents| == |s.docs| + 1 && !WithinLimits(p, limits, contents);
    assert Distinct(contents);
    OfferLeadsToReach(p, seeds, x, content);
    ReachedLater(p, seeds, content, x.depth, limits.maxDepth);
    forall c | c in contents
      ensures Reached(p, seeds, c, limits.maxDepth)
    {
      if c in Contents(s.docs) {
        var i :| 0 <= i < |s.docs| && Contents(s.docs)[i] == c;
        ReachedLater(p, seeds, c, s.depths[i], limits.maxDepth);
      }
    }
  }

  /** What the search knows about the paths it has read. */
  predicate PathsKnown(p: Project, seen: set<string>, pathHashes: map<string, string>, contents: seq<string>) {
    forall path :: path in seen ==>
      path in pathHashes && p.text(path) == Some(pathHashes[path]) && pathHashes[path] in contents
  }

  lemma PathRead(p: Project, seen: set<string>, pathHashes: map<string, string>, contents: seq<string>,
                 path: string, content: string)
    requires PathsKnown(p, seen, pathHashes, contents) && p.text(path) == Some(content)
    ensures PathsKnown(p, seen, pathHashes[path := content], contents)
    ensures content in contents ==> PathsKnown(p, seen + {path}, pathHashes[path := content], contents)
    ensures PathsKnown(p, seen + {path}, pathHashes[path := content], contents + [content])
  {
  }

  // ---------------------------------------------------------------- the worklist

  /** Every reported problem is one the project really has. */
  ghost predicate Genuine(p: Project, limits: Limits, seeds: seq<Item>, e: Problem) {
    match e
    case LinkNotFound(ref) => exists x :: Offered(p, seeds, x) && Faulty(p, limits, x) && x.ref == ref
                                && |p.candidates(ref)| == 0
    case LinkAmbiguous(ref) => exists x :: Offered(p, seeds, x) && Faulty(p, limits, x) && x.ref == ref
                                 && |p.candidates(ref)| > 1
    case ReadFailed(ref) => exists x :: Offered(p, seeds, x) && Faulty(p, limits, x) && x.ref == ref
                              && |p.candidates(ref)| == 1
    case DocumentLimit(_) => Overflowing(p, limits, seeds)
    case ByteLimit(_) => Overflowing(p, limits, seeds)
  }

  ghost predicate Going(p: Project, limits: Limits, seeds: seq<Item>, s: Search) {
    && Sound(p, limits, seeds, s) && Shaped(p, s) && Ordered(s) && WithinLimits(p, limits, Contents(s.docs))
    && forall z :: z in seeds ==> z.depth == 0
  }

  /** What serving one item does to the search. */
  ghost predicate Serves(p: Project, limits: Limits, seeds: seq<Item>, s: Search, t: Search) {
    Going(p, limits, seeds, t) && (Complete(p, limits, seeds, s) ==> Complete(p, limits, seeds, t))
  }

  lemma SkipServes(p: Project, limits: Limits, seeds: seq<Item>, s: Search)
    requires Going(p, limits, seeds, s) && s.queue != []
    ensures Offered(p, seeds, s.queue[0]) && Going(p, limits, seeds, Popped(s))
    ensures !Visible(p, limits, s.queue[0]) ==> Serves(p, limits, seeds, s, Popped(s))
    ensures p.candidates(s.queue[0].ref) == [] && !s.queue[0].required ==> Serves(p, limits, seeds, s, Popped(s))
  {
    Skips(p, limits, seeds, s);
  }

  lemma RememberServes(p: Project, limits: Limits, seeds: seq<Item>, s: Search, content: string)
    requires Going(p, limits, seeds, s) && s.queue != [] && content in Contents(s.docs)
    requires Visible(p, limits, s.queue[0]) && Resolution(p, s.queue[0].ref) == Some(content)
    ensures var t := Remembered(p, Popped(s), s.queue[0], content);
            Serves(p, limits, seeds, s, t) && Contents(t.docs) == Contents(s.docs)
  {
    Remembers(p, limits, seeds, s, content);
  }

  lemma AppendServes(p: Project, limits: Limits, seeds: seq<Item>, s: Search, path: string, content: string)
    requires Going(p, limits, seeds, s) && s.queue != [] && content !in Contents(s.docs)
    requires Visible(p, limits, s.queue[0]) && Resolution(p, s.queue[0].ref) == Some(content)
    requires |s.docs| < limits.maxDocuments && Bytes(p, Contents(s.docs)) + p.size(content) <= limits.maxBytes
    ensures var t := Appended(p, Popped(s), s.queue[0], path, content);
            Serves(p, limits, seeds, s, t) && Contents(t.docs) == Contents(s.docs) + [content]
  {
    Appends(p, limits, seeds, s, path, content);
    BytesSnoc(p, Contents(s.docs), content);
  }

  lemma OverflowReported(p: Project, limits: Limits, seeds: seq<Item>, s: Search, content: string)
    requires Going(p, limits, seeds, s) && s.queue != [] && content !in Contents(s.docs)
    requires Visible(p, limits, s.queue[0]) && Resolution(p, s.queue[0].ref) == Some(content)
    requires |s.docs| >= limits.maxDocuments || Bytes(p, Contents(s.docs)) + p.size(content) > limits.maxBytes
    ensures Overflowing(p, limits, seeds)
  {
    Skips(p, limits, seeds, s);
    OverflowsWith(p, limits, seeds, s, s.queue[0], content);
  }

  /** The problem says what is wrong with the reference. */
  predicate Reports(p: Project, x: Item, e: Problem) {
    && e.ref == x.ref
    && match e
       case LinkNotFound(_) => p.candidates(x.ref) == []
       case LinkAmbiguous(_) => |p.candidates(x.ref)| > 1
       case ReadFailed(_) => |p.candidates(x.ref)| == 1
       case _ => false
  }

  lemma FaultReported(p: Project, limits: Limits, seeds: seq<Item>, x: Item, errors: seq<Problem>, e: Problem)
    requires Offered(p, seeds, x) && Faulty(p, limits, x) && Reports(p, x, e)
    requires forall y :: y in errors ==> Genuine(p, limits, seeds, y)
    ensures FaultyOffer(p, limits, seeds)
    ensures forall y :: y in errors + [e] ==> Genuine(p, limits, seeds, y)
  {
    assert Genuine(p, limits, seeds, e);
  }

  function Next(p: Project, s: Search, path: string, content: string): Search
    requires s.queue != []
  {
    if content in Contents(s.docs) then Remembered(p, Popped(s), s.queue[0], content)
    else Appended(p, Popped(s), s.queue[0], path, content)
  }

  /** The limit a content met for the first time would break. */
  function LimitBroken(p: Project, limits: Limits, docs: seq<Document>, ref: string, content: string): Option<Problem> {
    if content in Contents(docs) then None
    else if |docs| >= limits.maxDocuments then Some(DocumentLimit(ref))
    else if Bytes(p, Contents(docs)) + p.size(content) > limits.maxBytes then Some(ByteLimit(ref))
    else None
  }

  lemma NextServes(p: Project, limits: Limits, seeds: seq<Item>, s: Search, path: string, content: string)
    requires Going(p, limits, seeds, s) && s.queue != []
    requires Visible(p, limits, s.queue[0]) && Resolution(p, s.queue[0].ref) == Some(content)
    ensures var broken := LimitBroken(p, limits, s.docs, s.queue[0].ref, content);
            if broken.Some? then Overflowing(p, limits, seeds) && Genuine(p, limits, seeds, broken.value)
            else Serves(p, limits, seeds, s, Next(p, s, path, content))
  {
    if content in Contents(s.docs) {
      RememberServes(p, limits, seeds, s, content);
    } else if LimitBroken(p, limits, s.docs, s.queue[0].ref, content).Some? {
      OverflowReported(p, limits, seeds, s, content);
    } else {
      AppendServes(p, limits, seeds, s, path, content);
    }
  }

  /** The part of the loop after a file has been resolved: its content is already known, or becomes a new
      document whose links join the queue, or breaks a limit. */
  method AddContent(p: Project, limits: Limits, x: Item, path: string, content: string, docs: seq<Document>,
                    references: map<string, seq<string>>, totalBytes: nat, queue: seq<Item>, ghost s: Search)
    returns (after: seq<Document>, remembered: map<string, seq<string>>, bytes: nat, rest: seq<Item>,
        problem: Option<Problem>)
    requires s.queue != [] && x == s.queue[0] && queue == s.queue[1..] && docs == s.docs && references == s.references
    requires totalBytes == Bytes(p, Contents(docs)) && Distinct(Contents(docs))
    ensures problem == LimitBroken(p, limits, docs, x.ref, content)
    ensures problem.None? ==>
              var t := Next(p, s, path, content); t.docs == after && t.references == remembered && t.queue == rest
    ensures problem.None? ==> bytes == Bytes(p, Contents(after))
    ensures problem.None? ==>
              Contents(after) == if content in Contents(docs) then Contents(docs) else Contents(docs) + [content]
  {
    bytes, rest, problem := totalBytes, queue, None;
    var found;
    after, remembered, found := Remember(p, docs, references, content, x.ref, x.required);
    if found {
      SameContents(p, Popped(s), x, content);
      return;
    }
    if |docs| >= limits.maxDocuments {
      problem := Some(DocumentLimit(x.ref));
      return;
    }
    if totalBytes + p.size(content) > limits.maxBytes {
      problem := Some(ByteLimit(x.ref));
      return;
    }
    BytesSnoc(p, Contents(docs), content);
    bytes := totalBytes + p.size(content);
    after := docs + [NewDocument(p, x, path, content)];
    assert Contents(after) == Contents(docs) + [content];
    rest := queue + LinkItems(p.links(content), x.depth + 1);
  }

  /** Reading one visible reference: the content it leads to and the file it is in, a problem, or nothing
      when an optional reference has no file. A path read before is not read again. */
  method ReadReference(p: Project, limits: Limits, x: Item, seen: set<string>, pathHashes: map<string, string>,
                       ghost contents: seq<string>)
    returns (path: string, content: Option<string>, problem: Option<Problem>)
    requires Visible(p, limits, x) && PathsKnown(p, seen, pathHashes, contents)
    ensures problem.Some? <==> Faulty(p, limits, x)
    ensures problem.Some? ==> content.None? && Reports(p, x, problem.value)
    ensures problem.None? && content.None? ==> p.candidates(x.ref) == [] && !x.required
    ensures content.Some? ==> Resolution(p, x.ref) == content && p.text(path) == content
  {
    path, content, problem := "", None, None;
    var candidates := p.candidates(x.ref);
    if candidates == [] {
      if x.required {
        problem := Some(LinkNotFound(x.ref));
      }
      return;
    }
    if |candidates| > 1 {
      problem := Some(LinkAmbiguous(x.ref));
      return;
    }
    path := candidates[0];
    if path in seen {
      content := Some(pathHashes[path]);
      return;
    }
    content := p.text(path);
    if content.None? {
      problem := Some(ReadFailed(x.ref));
    }
  }

  /** `build_context_packet`, from the seeded queue on: a packet comes out exactly when no offered reference
      is faulty and nothing overflows, and then it is faithful. */
  method BuildContextPacket(p: Project, limits: Limits, seeds: seq<Item>)
    returns (packet: Option<Packet>, errors: seq<Problem>)
    requires forall z :: z in seeds ==> z.depth == 0
    ensures packet.Some? <==> errors == []
    ensures packet.Some? <==> !FaultyOffer(p, limits, seeds) && !Overflowing(p, limits, seeds)
    ensures packet.Some? ==> Faithful(p, limits, seeds, packet.value)
    ensures forall e :: e in errors ==> Genuine(p, limits, seeds, e)
  {
    var docs: seq<Document>, references: map<string, seq<string>> := [], map[];
    var seen: set<string>, pathHashes: map<string, string> := {}, map[];
    var totalBytes: nat, queue := 0, seeds;
    errors := [];
    ghost var s := Search([], [], map[], seeds, 0);
    while queue != []
      invariant s.docs == docs && s.references == references && s.queue == queue
      invariant Going(p, limits, seeds, s)
      invariant errors == [] ==> Complete(p, limits, seeds, s)
      invariant errors != [] ==> FaultyOffer(p, limits, seeds)
      invariant forall e :: e in errors ==> Genuine(p, limits, seeds, e)
      invariant PathsKnown(p, seen, pathHashes, Contents(docs))
      invariant totalBytes == Bytes(p, Contents(docs))
      decreases limits.maxDocuments - |docs|, |queue|
    {
      var x := queue[0];
      queue := queue[1..];
      SkipServes(p, limits, seeds, s);
      if p.excluded(x.ref) || x.depth > limits.maxDepth {
        s := Popped(s);
        continue;
      }
      var path, read, fault := ReadReference(p, limits, x, seen, pathHashes, Contents(docs));
      if fault.Some? {
        FaultReported(p, limits, seeds, x, errors, fault.value);
        errors := errors + [fault.value];
        s := Popped(s);
        continue;
      }
      if read.None? {
        s := Popped(s);
        continue;
      }
      var content := read.value;
      PathRead(p, seen, pathHashes, Contents(docs), path, content);
      var problem;
      NextServes(p, limits, seeds, s, path, content);
      docs, references, totalBytes, queue, problem :=
        AddContent(p, limits, x, path, content, docs, references, totalBytes, queue, s);
      if problem.Some? {
        errors := errors + [problem.value];
        break;
      }
      s := Next(p, s, path, content);
      pathHashes := pathHashes[path := content];
      seen := seen + {path};
    }
    if errors != [] {
      packet := None;
    } else {
      FinishedIsFaithful(p, limits, seeds, s);
      FinishedIsFaultless(p, limits, seeds, s);
      packet := Some(Packet(docs, references));
    }
  }
}
