/** The growable byte queue behind every connection: wf_buffer.h and wf_buffer.cc. */
module Buffers {
  import opened Strings

  const CHEAP_PREPEND: nat := 8
  const INITIAL_SIZE: nat := 1024
  const EXTRA_BUF: nat := 65536

  /** What a buffer's operations depend on: the vector's size, readerIndex_, and the readable bytes. */
  datatype Layout = Layout(size: nat, reader: nat, bytes: string) {
    ghost predicate Valid() {
      CHEAP_PREPEND <= size && reader + |bytes| <= size
    }

    function Writable(): int {
      size - reader - |bytes|
    }
  }

  const EMPTY: Layout := Layout(CHEAP_PREPEND + INITIAL_SIZE, CHEAP_PREPEND, "")

  /** append: in place, else grow the vector, else compact it. */
  function Appended(l: Layout, s: string): Layout {
    if |s| <= l.Writable() then l.(bytes := l.bytes + s)
    else if l.Writable() + l.reader < |s| + CHEAP_PREPEND then
      Layout(l.reader + |l.bytes| + |s|, l.reader, l.bytes + s)
    else Layout(l.size, CHEAP_PREPEND, l.bytes + s)
  }

  /** One call on a buffer; ReadFd carries the bytes the kernel delivered. */
  datatype Op = Append(s: string) | Prepend(s: string) | Retrieve(n: nat) | RetrieveAll | ReadFd(s: string)

  /** What the source's assertions and the size of extrabuf ask of a call. */
  ghost predicate Legal(l: Layout, op: Op) {
    match op
    case Append(_) => true
    case Prepend(s) => |s| <= l.reader
    case Retrieve(n) => n <= |l.bytes|
    case RetrieveAll => true
    case ReadFd(s) => |s| <= l.Writable() + EXTRA_BUF
  }

  function Step(l: Layout, op: Op): (r: Layout)
    requires l.Valid() && Legal(l, op)
    ensures r.Valid()
  {
    match op
    case Append(s) => Appended(l, s)
    case Prepend(s) => Layout(l.size, l.reader - |s|, s + l.bytes)
    case Retrieve(n) => Layout(l.size, l.reader + n, l.bytes[n..])
    case RetrieveAll => Layout(l.size, CHEAP_PREPEND, "")
    case ReadFd(s) =>
      var w := l.Writable();
      if |s| <= w then l.(bytes := l.bytes + s)
      else Appended(l.(bytes := l.bytes + s[..w]), s[w..])
  }

  /** The same call on the queue of bytes a buffer stands for. */
  function OnQueue(q: string, op: Op): string {
    match op
    case Append(s) => q + s
    case Prepend(s) => s + q
    case Retrieve(n) => if n <= |q| then q[n..] else q
    case RetrieveAll => ""
    case ReadFd(s) => q + s
  }

  function QueueAfter(q: string, ops: seq<Op>): string
    decreases |ops|
  {
    if ops == [] then q else QueueAfter(OnQueue(q, ops[0]), ops[1..])
  }

  ghost predicate LegalRun(l: Layout, ops: seq<Op>)
    requires l.Valid()
    decreases |ops|
  {
    ops != [] ==> Legal(l, ops[0]) && LegalRun(Step(l, ops[0]), ops[1..])
  }

  function After(l: Layout, ops: seq<Op>): (r: Layout)
    requires l.Valid() && LegalRun(l, ops)
    ensures r.Valid()
    decreases |ops|
  {
    if ops == [] then l else After(Step(l, ops[0]), ops[1..])
  }

  /** Over every legal run, growth, compaction and scattered reads included, a buffer is a plain queue of bytes. */
  lemma {:induction false} RunRefinesQueue(l: Layout, ops: seq<Op>)
    requires l.Valid() && LegalRun(l, ops)
    ensures After(l, ops).bytes == QueueAfter(l.bytes, ops)
    decreases |ops|
  {
    if ops != [] {
      var op := ops[0];
      if op.ReadFd? && |op.s| > l.Writable() {
        var w := l.Writable();
        assert op.s == op.s[..w] + op.s[w..];
        assert l.bytes + op.s == l.bytes + op.s[..w] + op.s[w..];
      }
      assert Step(l, op).bytes == OnQueue(l.bytes, op);
      RunRefinesQueue(Step(l, op), ops[1..]);
    }
  }

  /** No state of the run, the first included, holds more than m readable bytes. */
  ghost predicate AtMost(l: Layout, ops: seq<Op>, m: nat)
    requires l.Valid() && LegalRun(l, ops)
    decreases |ops|
  {
    |l.bytes| <= m && (ops != [] ==> AtMost(Step(l, ops[0]), ops[1..], m))
  }

  function SizeBound(m: nat): nat {
    if CHEAP_PREPEND + INITIAL_SIZE >= 2 * m + 7 then CHEAP_PREPEND + INITIAL_SIZE else 2 * m + 7
  }

  /** The vector never outgrows twice the most bytes ever readable at once. */
  lemma {:induction false} SpaceBound(l: Layout, ops: seq<Op>, m: nat)
    requires l.Valid() && LegalRun(l, ops) && AtMost(l, ops, m)
    requires l.size <= SizeBound(m)
    ensures After(l, ops).size <= SizeBound(m)
    decreases |ops|
  {
    if ops != [] {
      SpaceBound(Step(l, ops[0]), ops[1..], m);
    }
  }

  /** That bound is met: one byte more than a drained, full initial vector holds makes it grow to 2m + 7. */
  lemma SpaceBoundIsTight(s: string, t: string)
    requires |s| == INITIAL_SIZE && |t| == INITIAL_SIZE + 1
    ensures var ops := [Append(s), Retrieve(|s|), Append(t)];
            LegalRun(EMPTY, ops) && AtMost(EMPTY, ops, |t|) && After(EMPTY, ops).size == SizeBound(|t|)
  {
    var ops := [Append(s), Retrieve(|s|), Append(t)];
    var full := Step(EMPTY, ops[0]);
    var drained := Step(full, ops[1]);
    assert ops[1..][1..] == [Append(t)];
    var grown := Step(drained, ops[2]);
    assert LegalRun(drained, [Append(t)]) && AtMost(drained, [Append(t)], |t|) && After(drained, [Append(t)]) == grown;
    assert LegalRun(full, ops[1..]) && AtMost(full, ops[1..], |t|) && After(full, ops[1..]) == grown;
  }

  /** The gap in front: an emptied buffer has exactly its eight bytes again, and no append takes them away. */
  lemma GapKept(l: Layout, s: string)
    requires l.Valid()
    ensures var e := Step(l, RetrieveAll); e.reader == 8 && e.Writable() == l.size - 8
    ensures l.reader >= 8 ==> Step(l, Append(s)).reader >= 8
    ensures |s| > l.Writable() && Step(l, Append(s)).size == l.size ==> Step(l, Append(s)).reader == 8
  {
  }

  class Buffer {
    var storage: array<char>
    var readerIndex: nat
    var writerIndex: nat

    ghost predicate Valid()
      reads this
    {
      readerIndex <= writerIndex <= storage.Length && CHEAP_PREPEND <= storage.Length
    }

    function Contents(): string
      requires Valid()
      reads this, storage
    {
      storage[readerIndex..writerIndex]
    }

    ghost function View(): (l: Layout)
      requires Valid()
      reads this, storage
      ensures l.Valid()
    {
      Layout(storage.Length, readerIndex, Contents())
    }

    constructor ()
      ensures Valid() && fresh(storage) && View() == EMPTY
    {
      storage := new char[CHEAP_PREPEND + INITIAL_SIZE];
      readerIndex, writerIndex := CHEAP_PREPEND, CHEAP_PREPEND;
    }

    function ReadableBytes(): nat
      requires Valid()
      reads this
    {
      writerIndex - readerIndex
    }

    function WritableBytes(): nat
      requires Valid()
      reads this
    {
      storage.Length - writerIndex
    }

    /** The position of the first CRLF, counted from peek(). */
    function FindFirstCRLF(): Option<nat>
      requires Valid()
      reads this, storage
    {
      FindCRLF(Contents())
    }

    method RetrieveBytes(n: nat)
      requires Valid() && n <= ReadableBytes()
      modifies this`readerIndex
      ensures Valid() && View() == Step(old(View()), Retrieve(n))
    {
      readerIndex := readerIndex + n;
    }

    method Clear()
      requires Valid()
      modifies this`readerIndex, this`writerIndex
      ensures Valid() && View() == Step(old(View()), RetrieveAll)
    {
      readerIndex, writerIndex := CHEAP_PREPEND, CHEAP_PREPEND;
    }

    method RetrieveAsString() returns (str: string)
      requires Valid()
      modifies this`readerIndex, this`writerIndex
      ensures Valid() && View() == Step(old(View()), RetrieveAll)
      ensures str == old(Contents())
    {
      str := Contents();
      Clear();
    }

    /** std::copy over one array: ascending, so it needs its target at or below its source. */
    method CopyDown(first: nat, last: nat, target: nat)
      requires target <= first <= last <= storage.Length
      modifies storage
      ensures storage[target..target + (last - first)] == old(storage[first..last])
    {
      ghost var before := storage[..];
      var i := first;
      while i < last
        invariant first <= i <= last
        invariant forall k :: first <= k < i ==> storage[target + (k - first)] == before[k]
        invariant forall k :: i <= k < storage.Length ==> storage[k] == before[k]
      {
        storage[target + (i - first)] := storage[i];
        i := i + 1;
      }
      assert storage[target..target + (last - first)] == before[first..last];
    }

    /** Room for len more bytes behind writerIndex, by resizing the vector or by compacting it. */
    method MakeSpace(len: nat)
      requires Valid() && WritableBytes() < len
      modifies this, storage
      ensures Valid() && (storage == old(storage) || fresh(storage))
      ensures len <= WritableBytes() && Contents() == old(Contents())
      ensures if old(WritableBytes() + readerIndex) < len + CHEAP_PREPEND
              then storage.Length == old(writerIndex) + len && readerIndex == old(readerIndex)
              else storage.Length == old(storage.Length) && readerIndex == CHEAP_PREPEND < old(readerIndex)
    {
      if WritableBytes() + readerIndex < len + CHEAP_PREPEND {
        var larger := new char[writerIndex + len];
        for i := 0 to storage.Length
          modifies larger
          invariant forall k :: 0 <= k < i ==> larger[k] == storage[k]
        {
          larger[i] := storage[i];
        }
        assert larger[readerIndex..writerIndex] == Contents();
        storage := larger;
      } else {
        var readable := ReadableBytes();
        CopyDown(readerIndex, writerIndex, CHEAP_PREPEND);
        readerIndex := CHEAP_PREPEND;
        writerIndex := readerIndex + readable;
      }
    }

    /** std::copy from outside the vector. */
    method WriteAt(at: nat, s: string)
      requires at + |s| <= storage.Length
      modifies storage
      ensures storage[..] == old(storage[..at]) + s + old(storage[at + |s|..])
    {
      for i := 0 to |s|
        invariant forall k :: 0 <= k < i ==> storage[at + k] == s[k]
        invariant forall k :: 0 <= k < storage.Length && !(at <= k < at + i) ==> storage[k] == old(storage[k])
      {
        storage[at + i] := s[i];
      }
    }

    lemma BehindHead(head: string, s: string, tail: string, from: nat)
      requires from <= |head|
      ensures (head + s + tail)[from..|head| + |s|] == head[from..] + s
    {
    }

    lemma BeforeTail(head: string, s: string, tail: string, to: nat)
      requires to <= |tail|
      ensures (head + s + tail)[|head|..|head| + |s| + to] == s + tail[..to]
    {
    }

    method AppendBytes(s: string)
      requires Valid()
      modifies this, storage
      ensures Valid() && (storage == old(storage) || fresh(storage))
      ensures View() == Step(old(View()), Append(s))
    {
      if WritableBytes() < |s| {
        MakeSpace(|s|);
      }
      FillSpare(s);
    }

    /** Bytes put behind the readable ones, where there is room for them. */
    method FillSpare(s: string)
      requires Valid() && |s| <= WritableBytes()
      modifies this`writerIndex, storage
      ensures Valid() && View() == old(View()).(bytes := old(Contents()) + s)
    {
      ghost var head, tail := storage[..writerIndex], storage[writerIndex + |s|..];
      WriteAt(writerIndex, s);
      BehindHead(head, s, tail, readerIndex);
      writerIndex := writerIndex + |s|;
      assert Contents() == storage[..][readerIndex..writerIndex];
    }

    /** The std::string overload of append. */
    method AppendString(s: string)
      requires Valid()
      modifies this, storage
      ensures Valid() && (storage == old(storage) || fresh(storage))
      ensures Contents() == old(Contents()) + s
    {
      AppendBytes(s);
    }

    method PrependBytes(s: string)
      requires Valid() && |s| <= readerIndex
      modifies this, storage
      ensures Valid() && storage == old(storage)
      ensures View() == Step(old(View()), Prepend(s))
    {
      ghost var head, tail := storage[..readerIndex - |s|], storage[readerIndex..];
      ghost var readable := Contents();
      readerIndex := readerIndex - |s|;
      WriteAt(readerIndex, s);
      BeforeTail(head, s, tail, |readable|);
      assert Contents() == storage[..][readerIndex..writerIndex];
    }

    /** readFd: readv fills the spare room, then extrabuf; None stands for a failed readv. */
    method ReadFromFd(input: Option<string>) returns (n: int)
      requires Valid()
      requires input.Some? ==> |input.value| <= WritableBytes() + EXTRA_BUF
      modifies this, storage
      ensures Valid() && (storage == old(storage) || fresh(storage))
      ensures n == if input.None? then -1 else |input.value|
      ensures View() == if input.None? then old(View()) else Step(old(View()), ReadFd(input.value))
    {
      if input.None? {
        return -1;
      }
      var s := input.value;
      n := |s|;
      var writable := WritableBytes();
      if n <= writable {
        FillSpare(s);
      } else {
        FillSpare(s[..writable]);
        AppendBytes(s[writable..]);
      }
    }
  }
}
