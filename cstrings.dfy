/**
 * The C-string buffers the option records own. A buffer is created by
 * `CString::new(text).unwrap().into_raw()` and reclaimed by
 * `let _ = CString::from_raw(ptr)`; the model names buffers by an id and keeps
 * the heap as a value, held by one `Allocator` object that every record shares.
 */
module CStrings {
  import opened Wrappers

  type BufferId = nat

  /**
   * `store` records the text of every buffer ever handed out, `live` the ones not
   * yet reclaimed, and `next` is an id no buffer has had yet.
   */
  datatype Heap = Heap(store: map<BufferId, string>, live: set<BufferId>, next: BufferId)

  /**
   * Every live buffer is on record, every id on record is below `next`, and no
   * buffer holds a NUL character: each is a valid NUL-terminated C string.
   */
  predicate Wf(h: Heap) {
    h.live <= h.store.Keys
    && forall b :: b in h.store ==> b < h.next && '\0' !in h.store[b]
  }

  /** `h'` keeps every buffer `h` has on record, with the same text. */
  predicate Extends(h: Heap, h': Heap) {
    forall b :: b in h.store ==> b in h'.store && h'.store[b] == h.store[b]
  }

  /** The process heap: the one place every record's string buffers live. */
  class Allocator {
    var heap: Heap

    constructor ()
      ensures Wf(heap) && heap.live == {}
    {
      heap := Heap(map[], {}, 0);
    }
  }

  /**
   * `CString::new(text).unwrap().into_raw()`: `None` when `text` holds a NUL
   * character (the `unwrap` panics), otherwise a fresh live buffer holding `text`.
   */
  function Allocate(h: Heap, text: string): (r: Option<(Heap, BufferId)>)
    requires Wf(h)
    ensures r.None? <==> '\0' in text
    ensures r.Some? ==>
      var (h', b) := r.value;
      Wf(h') && b !in h.store && h'.store == h.store[b := text] && h'.live == h.live + {b}
  {
    if '\0' in text then None
    else Some((Heap(h.store[h.next := text], h.live + {h.next}, h.next + 1), h.next))
  }

  /** `let _ = CString::from_raw(b)`: the buffer is freed; its old text stays on record. */
  function Reclaim(h: Heap, b: BufferId): (r: Heap)
    requires Wf(h) && b in h.live
    ensures Wf(r) && r.store == h.store && r.live == h.live - {b}
  {
    h.(live := h.live - {b})
  }

  /** What a string setter leaves behind: the heap, and the buffer it installed if it did not panic. */
  datatype Replacement = Replacement(heap: Heap, installed: Option<BufferId>)

  /**
   * The string setters of both records, in the order the code runs them: the
   * field's buffer `owned` is freed first, and only then is the new text copied.
   */
  function Replace(h: Heap, owned: BufferId, text: string): (r: Replacement)
    requires Wf(h) && owned in h.live
    ensures Wf(r.heap) && owned !in r.heap.live
    ensures r.installed.None? <==> '\0' in text
    ensures r.installed.None? ==> r.heap.store == h.store && r.heap.live == h.live - {owned}
    ensures r.installed.Some? ==>
      var b := r.installed.value;
      b !in h.store && r.heap.store == h.store[b := text] && r.heap.live == h.live - {owned} + {b}
  {
    var freed := Reclaim(h, owned);
    match Allocate(freed, text)
    case None => Replacement(freed, None)
    case Some((h', b)) => Replacement(h', Some(b))
  }

  /**
   * Allocate-first replacement: the old buffer is freed only once the new one
   * exists, so a rejected text changes nothing.
   */
  function ReplaceAllocFirst(h: Heap, owned: BufferId, text: string): (r: Replacement)
    requires Wf(h) && owned in h.live
    ensures r.installed.None? <==> '\0' in text
    ensures r.installed.None? ==> r.heap == h && owned in r.heap.live
    ensures r.installed.Some? ==> r == Replace(h, owned, text)
  {
    match Allocate(h, text)
    case None => Replacement(h, None)
    case Some((h', b)) => Replacement(Reclaim(h', owned), Some(b))
  }

  /**
   * A text with a NUL character in it: under the code's order the field's
   * buffer is already freed when `unwrap` panics, so the field dangles and the
   * record's `Drop`, run while unwinding, frees it a second time; under the
   * allocate-first order the buffer is still live.
   */
  lemma FreeFirstDangles(h: Heap, owned: BufferId, text: string)
    requires Wf(h) && owned in h.live
    requires '\0' in text
    ensures Replace(h, owned, text).installed.None?
    ensures owned !in Replace(h, owned, text).heap.live
    ensures owned in ReplaceAllocFirst(h, owned, text).heap.live
  {
  }

  /** `|texts|` consecutive calls of one string setter, the field starting at buffer `owned`. */
  function ReplaceAll(h: Heap, owned: BufferId, texts: seq<string>): (r: (Heap, BufferId))
    requires Wf(h) && owned in h.live
    requires forall i :: 0 <= i < |texts| ==> '\0' !in texts[i]
    ensures Wf(r.0) && r.1 in r.0.live && Extends(h, r.0)
    ensures r.0.store[r.1] == if texts == [] then h.store[owned] else texts[|texts| - 1]
    decreases |texts|
  {
    if texts == [] then (h, owned)
    else
      var step := Replace(h, owned, texts[0]);
      ReplaceAll(step.heap, step.installed.value, texts[1..])
  }

  /**
   * After one or more calls of a string setter exactly one buffer is owned by the
   * field: it is live, holds the latest text, and is fresh; the field's first
   * buffer and every buffer installed in between are freed, and no other
   * buffer's liveness changes.
   */
  lemma {:induction false} ReplaceAllLeavesOneBuffer(h: Heap, owned: BufferId, texts: seq<string>)
    requires Wf(h) && owned in h.live
    requires forall i :: 0 <= i < |texts| ==> '\0' !in texts[i]
    requires |texts| > 0
    ensures var (h', b) := ReplaceAll(h, owned, texts);
      Wf(h') && b !in h.store && b in h'.store && h'.store[b] == texts[|texts| - 1]
      && h'.live == h.live - {owned} + {b}
    decreases |texts|
  {
    var step := Replace(h, owned, texts[0]);
    var b0 := step.installed.value;
    if |texts| > 1 {
      var rest := texts[1..];
      assert forall i :: 0 <= i < |rest| ==> '\0' !in rest[i] by {
        forall i | 0 <= i < |rest| ensures '\0' !in rest[i] { assert rest[i] == texts[i + 1]; }
      }
      ReplaceAllLeavesOneBuffer(step.heap, b0, rest);
      var (h', b) := ReplaceAll(step.heap, b0, rest);
      assert ReplaceAll(h, owned, texts) == (h', b);
      assert rest[|rest| - 1] == texts[|texts| - 1];
      assert b0 !in h.live;
    } else {
      assert ReplaceAll(h, owned, texts) == ReplaceAll(step.heap, b0, []);
    }
  }
}
