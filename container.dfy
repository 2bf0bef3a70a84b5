/**
 * The "LCNN" weight container: the byte stream extract_weights.py writes and
 * WeightLoader::load (src/tensor.cpp) reads.
 *
 *   "LCNN", version word 1, entry count word, then per entry:
 *   name length L, L name bytes, ndim D, D dimension words, product(dims) float words.
 *
 * Every word is 4 bytes, least significant first. Floats travel as their 32-bit
 * patterns; the loader turns a pattern into an element value through the `float`
 * parameter (the IEEE-754 interpretation is not modelled). The reader is a cursor
 * over the stream: each read returns what it read and the bytes after it.
 */
module Container {
  import opened Wrappers
  import opened Tensors

  newtype Byte = x: int | 0 <= x < 256

  /** An unsigned 32-bit word (struct 'I', uint32_t). */
  type Word = x: nat | x < 0x1_0000_0000

  /** 'L', 'C', 'N', 'N'. */
  const Magic: seq<Byte> := [76, 67, 78, 78]
  const Version: Word := 1
  /** extract_weights.py keeps at most this many bytes of a name. */
  const MaxNameBytes: nat := 256
  /** Magic, version and count. */
  const HeaderSize: nat := 12

  // ---------------------------------------------------------------------------
  // Words

  /** struct.pack('I', w): the four little-endian bytes of w (of its low 32 bits, which is all of w for the values the writer packs). */
  function WordBytes(w: nat): (b: seq<Byte>)
    ensures |b| == 4
  {
    LittleEndian(w, 4)
  }

  /** The n low-order bytes of x, least significant first. */
  function LittleEndian(x: nat, n: nat): (b: seq<Byte>)
    ensures |b| == n
  {
    if n == 0 then [] else [(x % 256) as Byte] + LittleEndian(x / 256, n - 1)
  }

  /** The word stored little-endian in the first four bytes of s. */
  function WordAt(s: seq<Byte>): Word
    requires |s| >= 4
  {
    s[0] as int + 256 * (s[1] as int + 256 * (s[2] as int + 256 * s[3] as int))
  }

  /** file.read of one uint32_t: the word and the bytes after it, or None when fewer than four bytes remain. */
  function ReadWord(s: seq<Byte>): (r: Option<(Word, seq<Byte>)>)
    ensures r.Some? <==> |s| >= 4
    ensures r.Some? ==> |r.value.1| == |s| - 4
  {
    if |s| < 4 then None else Some((WordAt(s), s[4..]))
  }

  /** Reading the four bytes of a word gives the word back, and the cursor moves past them. */
  lemma ReadWordBytes(w: Word, rest: seq<Byte>)
    ensures ReadWord(WordBytes(w) + rest) == Some((w, rest))
  {
    var w1 := w / 256;
    var w2 := w1 / 256;
    var w3 := w2 / 256;
    assert LittleEndian(w3, 1) == [(w3 % 256) as Byte] + LittleEndian(w3 / 256, 0);
    assert LittleEndian(w2, 2) == [(w2 % 256) as Byte] + LittleEndian(w3, 1);
    assert LittleEndian(w1, 3) == [(w1 % 256) as Byte] + LittleEndian(w2, 2);
    assert WordBytes(w) == [(w % 256) as Byte] + LittleEndian(w1, 3);
    var s := WordBytes(w) + rest;
    assert s[0] == (w % 256) as Byte && s[1] == (w1 % 256) as Byte;
    assert s[2] == (w2 % 256) as Byte && s[3] == (w3 % 256) as Byte;
    assert w == w % 256 + 256 * w1;
    assert w1 == w1 % 256 + 256 * w2;
    assert w2 == w2 % 256 + 256 * w3;
    assert s[4..] == rest;
  }

  /** Words written one after the other. */
  function EncodeWords(ws: seq<Word>): (b: seq<Byte>)
    ensures |b| == 4 * |ws|
  {
    if ws == [] then [] else WordBytes(ws[0]) + EncodeWords(ws[1..])
  }

  /** k words read one after the other, or None when fewer than 4k bytes remain. */
  function ReadWords(s: seq<Byte>, k: nat): (r: Option<(seq<Word>, seq<Byte>)>)
    ensures r.Some? <==> |s| >= 4 * k
    ensures r.Some? ==> |r.value.0| == k && |r.value.1| == |s| - 4 * k
    decreases k
  {
    if k == 0 then Some(([], s))
    else match ReadWord(s)
      case None => None
      case Some(first) =>
        match ReadWords(first.1, k - 1)
        case None => None
        case Some(others) => Some(([first.0] + others.0, others.1))
  }

  /** j words read, then one more: j + 1 words read. */
  lemma {:induction false} ReadWordsSnoc(s: seq<Byte>, j: nat, ws: seq<Word>, cursor: seq<Byte>)
    requires ReadWords(s, j) == Some((ws, cursor)) && |cursor| >= 4
    ensures ReadWords(s, j + 1) == Some((ws + [WordAt(cursor)], cursor[4..]))
    decreases j
  {
    if j > 0 {
      var first := ReadWord(s).value;
      var others := ReadWords(first.1, j - 1).value;
      ReadWordsSnoc(first.1, j - 1, others.0, cursor);
      assert [first.0] + (others.0 + [WordAt(cursor)]) == ws + [WordAt(cursor)];
    } else {
      assert ws + [WordAt(cursor)] == [WordAt(cursor)] + [];
    }
  }

  /** Reading back the bytes of a word sequence gives that sequence, and the cursor moves past them. */
  lemma {:induction false} ReadEncodedWords(ws: seq<Word>, rest: seq<Byte>)
    ensures ReadWords(EncodeWords(ws) + rest, |ws|) == Some((ws, rest))
    decreases |ws|
  {
    if ws != [] {
      var tail := EncodeWords(ws[1..]) + rest;
      assert EncodeWords(ws) + rest == WordBytes(ws[0]) + tail;
      ReadWordBytes(ws[0], tail);
      ReadEncodedWords(ws[1..], rest);
      assert [ws[0]] + ws[1..] == ws;
    } else {
      assert EncodeWords(ws) + rest == rest;
    }
  }

  /** xs in front of what a run of reads produced; None stays None. */
  function Prepend<T>(xs: seq<T>, r: Option<(seq<T>, seq<Byte>)>): (p: Option<(seq<T>, seq<Byte>)>)
    ensures p.Some? <==> r.Some?
    ensures p.Some? ==> p.value == (xs + r.value.0, r.value.1)
  {
    match r
    case None => None
    case Some(v) => Some((xs + v.0, v.1))
  }

  // ---------------------------------------------------------------------------
  // Names

  /** A name byte read into a std::string character. */
  function Chars(b: seq<Byte>): (r: string)
    ensures |r| == |b|
  {
    seq(|b|, i requires 0 <= i < |b| => (b[i] as int) as char)
  }

  /** std::string(buf): the characters before the first zero byte. */
  function CString(b: seq<Byte>): (r: string)
    ensures |r| <= |b|
  {
    if b == [] || b[0] == 0 then "" else [(b[0] as int) as char] + CString(b[1..])
  }

  /** The string is the bytes before the first zero byte, and it stops at that byte or at the end. */
  lemma {:induction false} CStringIsPrefix(b: seq<Byte>)
    ensures CString(b) == Chars(b[..|CString(b)|])
    ensures forall i :: 0 <= i < |CString(b)| ==> b[i] != 0
    ensures |CString(b)| < |b| ==> b[|CString(b)|] == 0
  {
    if b != [] && b[0] != 0 {
      var rest := CString(b[1..]);
      CStringIsPrefix(b[1..]);
      assert b[..|rest| + 1] == [b[0]] + b[1..][..|rest|];
      assert Chars(b[..|rest| + 1]) == [(b[0] as int) as char] + Chars(b[1..][..|rest|]);
    }
  }

  /** A name without zero bytes is read back whole. */
  lemma CStringWhole(b: seq<Byte>)
    requires forall i :: 0 <= i < |b| ==> b[i] != 0
    ensures CString(b) == Chars(b)
  {
    CStringIsPrefix(b);
    assert |CString(b)| == |b|;
    assert b[..|b|] == b;
  }

  /** name.encode('utf-8')[:256]. */
  function Truncated(name: seq<Byte>): (r: seq<Byte>)
    ensures |r| <= MaxNameBytes
    ensures |name| <= MaxNameBytes ==> r == name
    ensures |name| > MaxNameBytes ==> r == name[..MaxNameBytes]
  {
    if |name| <= MaxNameBytes then name else name[..MaxNameBytes]
  }

  // ---------------------------------------------------------------------------
  // The writer (extract_weights.py)

  /** One state-dict parameter: UTF-8 name, shape, and its float32 patterns in C order. */
  datatype Param = Param(name: seq<Byte>, shape: seq<Word>, data: seq<Word>)

  /** What struct.pack accepts and numpy guarantees: ndim fits a word, and the flat data has product(shape) elements. */
  predicate Writable(p: Param)
  {
    Packable(p) && |p.data| == Product(p.shape)
  }

  /** struct.pack('I', ndim) accepts ndim. */
  predicate Packable(p: Param)
  {
    |p.shape| < 0x1_0000_0000
  }

  predicate WritableAll(ps: seq<Param>)
  {
    |ps| < 0x1_0000_0000 && forall i :: 0 <= i < |ps| ==> Writable(ps[i])
  }

  /** The bytes written for one parameter: its name, then its shape and data. */
  function EncodeEntry(p: Param): (b: seq<Byte>)
  {
    var name := Truncated(p.name);
    WordBytes(|name|) + name + EncodeTensor(p)
  }

  /** ndim, the dimension words and the data words of one parameter. */
  function EncodeTensor(p: Param): (b: seq<Byte>)
  {
    WordBytes(|p.shape|) + EncodeWords(p.shape) + EncodeWords(p.data)
  }

  /** The entries, in iteration order. */
  function EncodeEntries(ps: seq<Param>): seq<Byte>
  {
    if ps == [] then [] else EncodeEntry(ps[0]) + EncodeEntries(ps[1..])
  }

  /** The header for `count` entries. */
  function Header(count: nat): (b: seq<Byte>)
    ensures |b| == HeaderSize
  {
    Magic + WordBytes(Version) + WordBytes(count)
  }

  /** The whole file. */
  function Encode(ps: seq<Param>): seq<Byte>
  {
    Header(|ps|) + EncodeEntries(ps)
  }

  /** 4 + L + 4 + 4D + 4 * product(dims) bytes per entry. */
  function EntrySize(p: Param): nat
  {
    4 + |Truncated(p.name)| + 4 + 4 * |p.shape| + 4 * Product(p.shape)
  }

  function TotalEntrySize(ps: seq<Param>): nat
  {
    if ps == [] then 0 else EntrySize(ps[0]) + TotalEntrySize(ps[1..])
  }

  /** The file is 12 + sum of (4 + L + 4 + 4D + 4 * product(dims)) bytes long. */
  lemma EncodedLength(ps: seq<Param>)
    requires WritableAll(ps)
    ensures |Encode(ps)| == HeaderSize + TotalEntrySize(ps)
  {
    EntriesLength(ps);
  }

  lemma {:induction false} EntriesLength(ps: seq<Param>)
    requires forall i :: 0 <= i < |ps| ==> Writable(ps[i])
    ensures |EncodeEntries(ps)| == TotalEntrySize(ps)
  {
    if ps != [] {
      assert Writable(ps[0]);
      var tail := ps[1..];
      assert forall i :: 0 <= i < |tail| ==> tail[i] == ps[i + 1];
      EntriesLength(tail);
    }
  }

  /** The entries of ps followed by one more parameter. */
  lemma {:induction false} EncodeEntriesSnoc(ps: seq<Param>, p: Param)
    ensures EncodeEntries(ps + [p]) == EncodeEntries(ps) + EncodeEntry(p)
  {
    if ps == [] {
      assert [] + [p] == [p];
    } else {
      assert (ps + [p])[1..] == ps[1..] + [p];
      EncodeEntriesSnoc(ps[1..], p);
    }
  }

  /** After one more entry is written, the output covers one more parameter. */
  lemma WrittenSnoc(ps: seq<Param>, i: nat, before: seq<Byte>, after: seq<Byte>)
    requires i < |ps|
    requires before == Header(|ps|) + EncodeEntries(ps[..i])
    requires after == before + EncodeEntry(ps[i])
    ensures after == Header(|ps|) + EncodeEntries(ps[..i + 1])
  {
    assert ps[..i + 1] == ps[..i] + [ps[i]];
    EncodeEntriesSnoc(ps[..i], ps[i]);
    Regroup(Header(|ps|), EncodeEntries(ps[..i]), EncodeEntry(ps[i]));
  }

  /** The writer: header, then each parameter's name, shape and data appended in turn. */
  method ExtractWeights(ps: seq<Param>) returns (out: seq<Byte>)
    requires |ps| < 0x1_0000_0000 && forall i :: 0 <= i < |ps| ==> Packable(ps[i])
    ensures out == Encode(ps)
  {
    out := Magic;
    out := out + WordBytes(Version);
    out := out + WordBytes(|ps|);
    for i := 0 to |ps|
      invariant out == Header(|ps|) + EncodeEntries(ps[..i])
    {
      ghost var before := out;
      out := WriteEntry(out, ps[i]);
      WrittenSnoc(ps, i, before, out);
    }
    assert ps[..|ps|] == ps;
  }

  /** One iteration of the writer loop: the parameter's bytes appended to what was written. */
  method WriteEntry(written: seq<Byte>, p: Param) returns (out: seq<Byte>)
    requires Packable(p)
    ensures out == written + EncodeEntry(p)
  {
    var nameBytes := if |p.name| <= MaxNameBytes then p.name else p.name[..MaxNameBytes];
    out := written + WordBytes(|nameBytes|);
    out := out + nameBytes;
    out := out + WordBytes(|p.shape|);
    out := WriteDims(out, p.shape);
    out := out + EncodeWords(p.data);
    AppendAssoc(written, WordBytes(|nameBytes|), nameBytes, WordBytes(|p.shape|), EncodeWords(p.shape), EncodeWords(p.data));
  }

  /** The dimension loop: one word per dimension, in shape order. */
  method WriteDims(written: seq<Byte>, shape: seq<Word>) returns (out: seq<Byte>)
    ensures out == written + EncodeWords(shape)
  {
    out := written;
    for j := 0 to |shape|
      invariant out == written + EncodeWords(shape[..j])
    {
      EncodeWordsSnoc(shape[..j], shape[j]);
      assert shape[..j + 1] == shape[..j] + [shape[j]];
      out := out + WordBytes(shape[j]);
    }
    assert shape[..|shape|] == shape;
  }

  /** Concatenation regroups. */
  lemma Regroup(a: seq<Byte>, b: seq<Byte>, c: seq<Byte>)
    ensures (a + b) + c == a + (b + c)
  {
  }

  /** A concatenation splits back into its two parts. */
  lemma Split(a: seq<Byte>, b: seq<Byte>)
    ensures (a + b)[..|a|] == a && (a + b)[|a|..] == b
  {
  }

  lemma AppendAssoc(w: seq<Byte>, a: seq<Byte>, b: seq<Byte>, c: seq<Byte>, d: seq<Byte>, e: seq<Byte>)
    ensures w + a + b + c + d + e == w + (a + b + c + d + e)
  {
  }

  lemma {:induction false} EncodeWordsSnoc(ws: seq<Word>, w: Word)
    ensures EncodeWords(ws + [w]) == EncodeWords(ws) + WordBytes(w)
  {
    if ws == [] {
      assert [] + [w] == [w];
    } else {
      assert (ws + [w])[1..] == ws[1..] + [w];
      EncodeWordsSnoc(ws[1..], w);
    }
  }

  // ---------------------------------------------------------------------------
  // The reader (WeightLoader::load)

  /** An entry as the stream holds it: the name, the dimension words and the float patterns. */
  datatype Entry = Entry(name: string, shape: seq<Word>, data: seq<Word>)

  /** What the reader made of the stream: the entries, and the bytes after the last of them. */
  datatype Parsed = Parsed(entries: seq<Entry>, rest: seq<Byte>)

  /** ndim, the dimension words and product(dims) float words, and the bytes after them. */
  function ParseTensor(s: seq<Byte>): (r: Option<(seq<Word>, seq<Word>, seq<Byte>)>)
    ensures r.Some? ==> |r.value.1| == Product(r.value.0) && |r.value.2| < |s|
  {
    match ReadWord(s)
    case None => None
    case Some(ndim) =>
      match ReadWords(ndim.1, ndim.0)
      case None => None
      case Some(dims) =>
        match ReadWords(dims.1, Product(dims.0))
        case None => None
        case Some(ws) => Some((dims.0, ws.0, ws.1))
  }

  /**
   * One entry: the name length, that many name bytes cut at the first zero byte,
   * then the tensor; None when the stream ends first.
   */
  function ParseEntry(s: seq<Byte>): (r: Option<(Entry, seq<Byte>)>)
    ensures r.Some? ==> |r.value.0.data| == Product(r.value.0.shape) && |r.value.1| < |s|
  {
    match ReadWord(s)
    case None => None
    case Some(len) =>
      if |len.1| < len.0 then None
      else
        match ParseTensor(len.1[len.0..])
        case None => None
        case Some(t) => Some((Entry(CString(len.1[..len.0]), t.0, t.1), t.2))
  }

  /** count reads by `step`, each starting where the previous one stopped; None once one of them fails. */
  function ReadRun(step: seq<Byte> -> Option<(Entry, seq<Byte>)>, s: seq<Byte>, count: nat): (r: Option<(seq<Entry>, seq<Byte>)>)
    ensures r.Some? ==> |r.value.0| == count
    decreases count
  {
    if count == 0 then Some(([], s))
    else match step(s)
      case None => None
      case Some(first) => Prepend([first.0], ReadRun(step, first.1, count - 1))
  }

  /** A successful read followed by a run of count - 1 reads from where it stopped is a run of count reads. */
  lemma RunCons(step: seq<Byte> -> Option<(Entry, seq<Byte>)>, s: seq<Byte>, count: nat, e: Entry, after: seq<Byte>, es: seq<Entry>, rest: seq<Byte>)
    requires count > 0 && step(s) == Some((e, after)) && ReadRun(step, after, count - 1) == Some((es, rest))
    ensures ReadRun(step, s, count) == Some(([e] + es, rest))
  {
  }

  /** A run of i reads that stopped at `cursor`, followed by one more successful read, is a run of i + 1 reads. */
  lemma {:induction false} RunSnoc(step: seq<Byte> -> Option<(Entry, seq<Byte>)>, s: seq<Byte>, i: nat, entries: seq<Entry>, cursor: seq<Byte>)
    requires ReadRun(step, s, i) == Some((entries, cursor)) && step(cursor).Some?
    ensures ReadRun(step, s, i + 1) == Some((entries + [step(cursor).value.0], step(cursor).value.1))
    decreases i
  {
    if i > 0 {
      var first := step(s).value;
      var others := ReadRun(step, first.1, i - 1).value;
      RunSnoc(step, first.1, i - 1, others.0, cursor);
      assert [first.0] + (others.0 + [step(cursor).value.0]) == entries + [step(cursor).value.0];
    } else {
      assert entries + [step(cursor).value.0] == [step(cursor).value.0] + [];
    }
  }

  /** A run whose next read fails yields nothing, however many reads were asked for beyond it. */
  lemma {:induction false} RunStops(step: seq<Byte> -> Option<(Entry, seq<Byte>)>, s: seq<Byte>, i: nat, entries: seq<Entry>, cursor: seq<Byte>, count: nat)
    requires ReadRun(step, s, i) == Some((entries, cursor)) && step(cursor).None? && i < count
    ensures ReadRun(step, s, count) == None
    decreases i
  {
    if i > 0 {
      var first := step(s).value;
      var others := ReadRun(step, first.1, i - 1).value;
      RunStops(step, first.1, i - 1, others.0, cursor, count - 1);
    }
  }

  /**
   * The whole stream: a wrong magic fails as in the source; a stream that ends
   * before the declared entries fails too (the source does not check this).
   */
  function Parse(s: seq<Byte>): (r: Result<Parsed>)
    ensures r.Success? ==> |s| >= HeaderSize && s[..4] == Magic
    ensures r.Success? ==> |r.value.entries| == WordAt(s[8..])
    ensures |s| >= 4 && s[..4] != Magic ==> r == Failure("Invalid magic number")
  {
    if |s| < 4 then Failure("Unexpected end of weights file")
    else if s[..4] != Magic then Failure("Invalid magic number")
    else match ReadWord(s[4..])
      case None => Failure("Unexpected end of weights file")
      case Some(version) =>
        match ReadWord(version.1)
        case None => Failure("Unexpected end of weights file")
        case Some(count) =>
          match ReadRun(ParseEntry, count.1, count.0)
          case None => Failure("Unexpected end of weights file")
          case Some(res) => Success(Parsed(res.0, res.1))
  }

  /** What a written parameter reads back as: the (truncated) name up to its first zero byte, its shape and its data. */
  function Decoded(p: Param): Entry
  {
    Entry(CString(Truncated(p.name)), p.shape, p.data)
  }

  function DecodedAll(ps: seq<Param>): (r: seq<Entry>)
    ensures |r| == |ps|
  {
    if ps == [] then [] else [Decoded(ps[0])] + DecodedAll(ps[1..])
  }

  /** Entry i reads back as parameter i. */
  lemma {:induction false} DecodedAllAt(ps: seq<Param>, i: nat)
    requires i < |ps|
    ensures DecodedAll(ps)[i] == Decoded(ps[i])
    decreases i
  {
    if i > 0 {
      DecodedAllAt(ps[1..], i - 1);
    }
  }

  /** Reading written shape and data gives them back, and the cursor moves past them. */
  lemma ParseEncodedTensor(p: Param, rest: seq<Byte>)
    requires Writable(p)
    ensures ParseTensor(EncodeTensor(p) + rest) == Some((p.shape, p.data, rest))
  {
    var dataAndRest := EncodeWords(p.data) + rest;
    var shapeAndRest := EncodeWords(p.shape) + dataAndRest;
    assert EncodeTensor(p) + rest == WordBytes(|p.shape|) + shapeAndRest;
    ReadWordBytes(|p.shape|, shapeAndRest);
    ReadEncodedWords(p.shape, dataAndRest);
    ReadEncodedWords(p.data, rest);
  }

  /** Reading a written entry gives the decoded parameter, and the cursor moves past it. */
  lemma ParseEncodedEntry(p: Param, rest: seq<Byte>)
    requires Writable(p)
    ensures ParseEntry(EncodeEntry(p) + rest) == Some((Decoded(p), rest))
  {
    var name := Truncated(p.name);
    var tensorAndRest := EncodeTensor(p) + rest;
    var nameAndRest := name + tensorAndRest;
    assert EncodeEntry(p) + rest == WordBytes(|name|) + nameAndRest;
    ReadWordBytes(|name|, nameAndRest);
    assert nameAndRest[..|name|] == name && nameAndRest[|name|..] == tensorAndRest;
    ParseEncodedTensor(p, rest);
  }

  /** Reading the entries of a written file gives the decoded parameters, and the cursor moves past them. */
  lemma ParseEncodedEntries(ps: seq<Param>, rest: seq<Byte>)
    requires forall i :: 0 <= i < |ps| ==> Writable(ps[i])
    ensures ReadRun(ParseEntry, EncodeEntries(ps) + rest, |ps|) == Some((DecodedAll(ps), rest))
  {
    forall i, r | 0 <= i < |ps|
      ensures ParseEntry(EncodeEntry(ps[i]) + r) == Some((Decoded(ps[i]), r))
    {
      ParseEncodedEntry(ps[i], r);
    }
    RunEncoded(ParseEntry, ps, rest);
  }

  /** A reader that reads every written entry back reads a written run back. */
  lemma {:induction false} RunEncoded(step: seq<Byte> -> Option<(Entry, seq<Byte>)>, ps: seq<Param>, rest: seq<Byte>)
    requires forall i, r :: 0 <= i < |ps| ==> step(EncodeEntry(ps[i]) + r) == Some((Decoded(ps[i]), r))
    ensures ReadRun(step, EncodeEntries(ps) + rest, |ps|) == Some((DecodedAll(ps), rest))
    decreases |ps|
  {
    if ps != [] {
      var tail := ps[1..];
      var after := EncodeEntries(tail) + rest;
      Regroup(EncodeEntry(ps[0]), EncodeEntries(tail), rest);
      assert step(EncodeEntry(ps[0]) + after) == Some((Decoded(ps[0]), after));
      assert forall i :: 0 <= i < |tail| ==> tail[i] == ps[i + 1];
      RunEncoded(step, tail, rest);
      RunCons(step, EncodeEntries(ps) + rest, |ps|, Decoded(ps[0]), after, DecodedAll(tail), rest);
    } else {
      assert EncodeEntries(ps) + rest == rest;
    }
  }

  /**
   * Round trip: a stream holding what the writer wrote, followed by any bytes,
   * reads back every parameter and stops right after the written bytes.
   */
  lemma ParseEncode(ps: seq<Param>, rest: seq<Byte>)
    requires WritableAll(ps)
    ensures Parse(Encode(ps) + rest) == Success(Parsed(DecodedAll(ps), rest))
  {
    var entries := EncodeEntries(ps) + rest;
    var afterVersion := WordBytes(|ps|) + entries;
    var afterMagic := WordBytes(Version) + afterVersion;
    var s := Encode(ps) + rest;
    Regroup(Header(|ps|), EncodeEntries(ps), rest);
    Regroup(Magic + WordBytes(Version), WordBytes(|ps|), entries);
    Regroup(Magic, WordBytes(Version), afterVersion);
    Split(Magic, afterMagic);
    ReadWordBytes(Version, afterVersion);
    ReadWordBytes(|ps|, entries);
    ParseEncodedEntries(ps, rest);
  }

  /** A name of at most 256 bytes with no zero byte comes back as written, and so do the shape and data. */
  lemma NameRoundTrip(p: Param)
    requires |p.name| <= MaxNameBytes && forall i :: 0 <= i < |p.name| ==> p.name[i] != 0
    ensures Decoded(p) == Entry(Chars(p.name), p.shape, p.data)
  {
    CStringWhole(p.name);
  }

  /** A longer name comes back cut to its first 256 bytes. */
  lemma LongNameTruncated(p: Param)
    requires |p.name| > MaxNameBytes && forall i :: 0 <= i < MaxNameBytes ==> p.name[i] != 0
    ensures Decoded(p).name == Chars(p.name[..MaxNameBytes])
  {
    CStringWhole(p.name[..MaxNameBytes]);
  }

  /**
   * The reads of one loop iteration of the loader: name length, name, then the tensor.
   * This is the imperative twin of ParseEntry, one read after another in the loader's
   * order, and its ensures ties it to that function.
   */
  method ReadEntry(s: seq<Byte>) returns (r: Option<(Entry, seq<Byte>)>)
    ensures r == ParseEntry(s)
  {
    var len := ReadWord(s);
    if len.None? { return None; }
    var nameLen: nat := len.value.0;
    var cursor := len.value.1;
    if |cursor| < nameLen { return None; }
    var name := CString(cursor[..nameLen]);
    var t := ReadTensor(cursor[nameLen..]);
    if t.None? { return None; }
    r := Some((Entry(name, t.value.0, t.value.1), t.value.2));
  }

  /** Reads ndim, then each dimension word in turn, then the product(dims) float words in one block. */
  method ReadTensor(s: seq<Byte>) returns (r: Option<(seq<Word>, seq<Word>, seq<Byte>)>)
    ensures r == ParseTensor(s)
  {
    var hdr := ReadWord(s);
    if hdr.None? { return None; }
    var ndim: nat := hdr.value.0;
    var dimBytes := hdr.value.1;
    if |dimBytes| < 4 * ndim { return None; }
    var shape: seq<Word> := [];
    var cursor := dimBytes;
    for j := 0 to ndim
      invariant ReadWords(dimBytes, j) == Some((shape, cursor))
    {
      var dim := ReadWord(cursor);
      ReadWordsSnoc(dimBytes, j, shape, cursor);
      shape := shape + [dim.value.0];
      cursor := dim.value.1;
    }
    var data := ReadWords(cursor, Product(shape));
    if data.None? { return None; }
    r := Some((shape, data.value.0, data.value.1));
  }

  // ---------------------------------------------------------------------------
  // The loader's output

  /** One loaded (name, tensor) pair. */
  datatype Named = Named(name: string, tensor: Tensor)

  /** The element values of a sequence of float patterns. */
  function Floats(float: Word -> real, ws: seq<Word>): (r: seq<real>)
    ensures |r| == |ws|
  {
    seq(|ws|, i requires 0 <= i < |ws| => float(ws[i]))
  }

  /** The Tensor(shape, data) the loader builds from an entry. */
  function ToNamed(float: Word -> real, e: Entry): Named
  {
    Named(e.name, Tensor(e.shape, Floats(float, e.data)))
  }

  function ToNamedAll(float: Word -> real, es: seq<Entry>): (r: seq<Named>)
    ensures |r| == |es|
  {
    if es == [] then [] else ToNamedAll(float, es[..|es| - 1]) + [ToNamed(float, es[|es| - 1])]
  }

  /**
   * WeightLoader::load: `file` is None when the file cannot be opened. The parsed
   * entries are appended to `weights` in stream order; on failure the entries read
   * so far stay appended, and a missing file or a wrong header appends nothing.
   */
  method Load(file: Option<seq<Byte>>, float: Word -> real, weights: seq<Named>)
    returns (ok: bool, result: seq<Named>)
    ensures ok <==> file.Some? && Parse(file.value).Success?
    ensures ok ==> result == weights + ToNamedAll(float, Parse(file.value).value.entries)
    ensures |result| >= |weights| && result[..|weights|] == weights
    ensures file.None? || |file.value| < HeaderSize || file.value[..4] != Magic ==> result == weights
  {
    if file.None? { return false, weights; }
    var s := file.value;
    if |s| < 4 { return false, weights; }
    if s[..4] != Magic { return false, weights; }
    var version := ReadWord(s[4..]);
    if version.None? { return false, weights; }
    var count := ReadWord(version.value.1);
    if count.None? { return false, weights; }
    ok, result := LoadEntries(count.value.1, count.value.0, float, weights);
  }

  /** The entry loop: `count` entries read one after the other, each appended to `weights`. */
  method LoadEntries(s: seq<Byte>, count: nat, float: Word -> real, weights: seq<Named>)
    returns (ok: bool, result: seq<Named>)
    ensures ok <==> ReadRun(ParseEntry, s, count).Some?
    ensures ok ==> result == weights + ToNamedAll(float, ReadRun(ParseEntry, s, count).value.0)
    ensures |result| >= |weights| && result[..|weights|] == weights
  {
    result := weights;
    var cursor := s;
    ghost var entries: seq<Entry> := [];
    for i := 0 to count
      invariant ReadRun(ParseEntry, s, i) == Some((entries, cursor))
      invariant result == weights + ToNamedAll(float, entries)
    {
      var e := ReadEntry(cursor);
      if e.None? {
        RunStops(ParseEntry, s, i, entries, cursor, count);
        return false, result;
      }
      RunSnoc(ParseEntry, s, i, entries, cursor);
      assert (entries + [e.value.0])[..|entries|] == entries;
      entries := entries + [e.value.0];
      result := result + [ToNamed(float, e.value.0)];
      cursor := e.value.1;
    }
    ok := true;
  }
}
