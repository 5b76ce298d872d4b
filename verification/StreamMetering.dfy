/** The model gateway's streaming loop: forwarding a response while metering the usage events inside it. */
module StreamMetering {
  import opened Contracts
  import opened QuotaErrors
  import ProviderQuota

  newtype byte = b: int | 0 <= b < 256

  type bytes = seq<byte>

  const LF: byte := 10
  const CR: byte := 13
  const DATA: bytes := [100, 97, 116, 97, 58]
  const SIZE_LIMIT: nat := 8 * 1024 * 1024
  const AMOUNT_LIMIT: int := 10000000

  /** What one JSON document says: its error, and the token counts that are plain integers. */
  datatype Report = Report(error: ErrorBody, prompt: int, completion: int)

  const OK_STATUS := 200

  /** A document of a successful response that reports the quota exhausted. */
  predicate Limiting(report: Report) { Judge(OK_STATUS, report.error) == Limited }

  /** The JSON reader; `None` is a document that does not parse or is not an object. */
  type Reader = bytes -> Option<Report>

  /** Usage counters, the quota flag, and the provider's delay for the latest quota error. */
  datatype Meter = Meter(inputTokens: nat, outputTokens: nat, rateLimited: nat, quotaGone: bool, retryAfter: Option<int>)

  // ---------------------------------------------------------------- documents inside a text

  predicate StartsWith(s: bytes, prefix: bytes) { |prefix| <= |s| && s[..|prefix|] == prefix }

  predicate Contains(s: bytes, part: bytes)
    decreases |s|
  {
    StartsWith(s, part) || (s != [] && Contains(s[1..], part))
  }

  predicate Space(b: byte) { b == 32 || 9 <= b <= 13 }

  function StripLeft(s: bytes): (part: bytes) { if s != [] && Space(s[0]) then StripLeft(s[1..]) else s }

  function StripRight(s: bytes): (part: bytes) { if s != [] && Space(s[|s| - 1]) then StripRight(s[..|s| - 1]) else s }

  /** `bytes.splitlines`: a line ends at LF, CR or CR LF, and an empty last line is dropped. */
  function SplitLines(s: bytes, line: bytes): (texts: seq<bytes>)
    decreases |s|
  {
    if s == [] then if line == [] then [] else [line]
    else if s[0] == LF then [line] + SplitLines(s[1..], [])
    else if s[0] == CR then [line] + SplitLines(if |s| > 1 && s[1] == LF then s[2..] else s[1..], [])
    else SplitLines(s[1..], line + [s[0]])
  }

  function DataLines(lines: seq<bytes>): (texts: seq<bytes>)
    decreases |lines|
  {
    if lines == [] then []
    else (if StartsWith(lines[0], DATA) then [StripRight(StripLeft(lines[0][5..]))] else []) + DataLines(lines[1..])
  }

  function Documents(text: bytes): (texts: seq<bytes>)
  {
    if !Contains(text, DATA) then [text] else DataLines(SplitLines(text, []))
  }

  // ---------------------------------------------------------------- observing usage

  function Marked(m: Meter, delay: Option<int>): (next: Meter)
  {
    m.(rateLimited := m.rateLimited + if m.quotaGone then 0 else 1, quotaGone := true, retryAfter := delay)
  }

  function Amount(n: int): (result: nat) { if 0 <= n <= AMOUNT_LIMIT then n else 0 }

  function ObserveDocument(m: Meter, document: bytes, read: Reader): (next: Meter)
  {
    match read(document)
    case None => m
    case Some(report) =>
      var marked := if Limiting(report) then Marked(m, None) else m;
      marked.(inputTokens := m.inputTokens + Amount(report.prompt), outputTokens := m.outputTokens + Amount(report.completion))
  }

  function ObserveDocuments(m: Meter, documents: seq<bytes>, read: Reader): (next: Meter)
  {
    if documents == [] then m
    else ObserveDocument(ObserveDocuments(m, documents[..|documents| - 1], read), documents[|documents| - 1], read)
  }

  function Observe(m: Meter, text: bytes, read: Reader): (next: Meter) { ObserveDocuments(m, Documents(text), read) }

  function ObserveAll(m: Meter, texts: seq<bytes>, read: Reader): (next: Meter)
  {
    if texts == [] then m else Observe(ObserveAll(m, texts[..|texts| - 1], read), texts[|texts| - 1], read)
  }

  /** Some document of the text is a quota error. */
  predicate Limits(text: bytes, read: Reader)
  {
    exists d :: d in Documents(text) && read(d).Some? && Limiting(read(d).value)
  }

  // ---------------------------------------------------------------- lines of a stream

  /** The stream cut at each LF. The last element is the unfinished line, empty when the stream ends with LF. */
  function Lines(s: bytes): (lines: seq<bytes>)
    ensures |lines| > 0
  {
    if s == [] then [[]]
    else
      var before := Lines(s[..|s| - 1]);
      if s[|s| - 1] == LF then before + [[]]
      else before[..|before| - 1] + [before[|before| - 1] + [s[|s| - 1]]]
  }

  function Finished(s: bytes): (lines: seq<bytes>) { Lines(s)[..|Lines(s)| - 1] }

  function Rest(s: bytes): (line: bytes) { Lines(s)[|Lines(s)| - 1] }

  function Joined(chunks: seq<bytes>): (s: bytes)
  {
    if chunks == [] then [] else Joined(chunks[..|chunks| - 1]) + chunks[|chunks| - 1]
  }

  // ---------------------------------------------------------------- the loop

  /** State after some chunks: the meter, the bytes kept back, the bytes written to the client, and whether it broke off. */
  datatype Flow = Flow(meter: Meter, body: bytes, forwarded: bytes, received: nat, stopped: bool)

  function Receive(f: Flow, chunk: bytes, streaming: bool, read: Reader): (next: Flow)
  {
    if f.stopped then f
    else
      var body, received := f.body + chunk, f.received + |chunk|;
      if received > SIZE_LIMIT then f.(body := body, received := received, stopped := true)
      else if !streaming then f.(body := body, received := received, forwarded := f.forwarded + chunk)
      else
        var meter := ObserveAll(f.meter, Finished(body), read);
        if meter.quotaGone then Flow(meter, Rest(body), f.forwarded, received, true)
        else Flow(meter, Rest(body), f.forwarded + chunk, received, false)
  }

  function Start(m: Meter): (next: Flow) { Flow(m, [], [], 0, false) }

  function ReceiveAll(m: Meter, chunks: seq<bytes>, streaming: bool, read: Reader): (next: Flow)
  {
    if chunks == [] then Start(m)
    else Receive(ReceiveAll(m, chunks[..|chunks| - 1], streaming, read), chunks[|chunks| - 1], streaming, read)
  }

  /** The meter when the response is over: what is left in the body is observed last. */
  function Metered(m: Meter, chunks: seq<bytes>, streaming: bool, read: Reader): (next: Meter)
  {
    var f := ReceiveAll(m, chunks, streaming, read);
    Observe(f.meter, f.body, read)
  }

  // ---------------------------------------------------------------- splitting does not depend on chunks

  lemma OneByteMore(s: bytes, b: byte)
    ensures Finished(s + [b]) == if b == LF then Finished(s) + [Rest(s)] else Finished(s)
    ensures Rest(s + [b]) == if b == LF then [] else Rest(s) + [b]
  {
    assert (s + [b])[..|s|] == s;
    assert Lines(s) == Finished(s) + [Rest(s)];
  }

  /** Two texts with the same unfinished line, one ahead by `before`, stay so after the same byte. */
  lemma SplitGoesOn(before: seq<bytes>, long: bytes, short: bytes, b: byte)
    requires Finished(long) == before + Finished(short) && Rest(long) == Rest(short)
    ensures Finished(long + [b]) == before + Finished(short + [b]) && Rest(long + [b]) == Rest(short + [b])
  {
    OneByteMore(long, b);
    OneByteMore(short, b);
  }

  lemma {:induction false} LinesOfAppended(s: bytes, t: bytes)
    ensures Finished(s + t) == Finished(s) + Finished(Rest(s) + t)
    ensures Rest(s + t) == Rest(Rest(s) + t)
  {
    if t == [] {
      assert s + t == s && Rest(s) + t == Rest(s);
      RestIsOneLine(s);
    } else {
      var init, last := t[..|t| - 1], t[|t| - 1];
      LinesOfAppended(s, init);
      assert s + t == (s + init) + [last];
      assert Rest(s) + t == (Rest(s) + init) + [last];
      SplitGoesOn(Finished(s), s + init, Rest(s) + init, last);
    }
  }

  lemma {:induction false} RestIsOneLine(s: bytes)
    ensures LF !in Rest(s) && Lines(Rest(s)) == [Rest(s)]
  {
    if s != [] {
      RestIsOneLine(s[..|s| - 1]);
      if s[|s| - 1] != LF {
        var rest := Rest(s[..|s| - 1]);
        assert (rest + [s[|s| - 1]])[..|rest|] == rest;
      }
    }
  }

  lemma ObserveOneMore(m: Meter, texts: seq<bytes>, text: bytes, read: Reader)
    ensures ObserveAll(m, texts + [text], read) == Observe(ObserveAll(m, texts, read), text, read)
  {
    assert (texts + [text])[..|texts|] == texts;
  }

  lemma {:induction false} ObserveAllAppends(m: Meter, a: seq<bytes>, b: seq<bytes>, read: Reader)
    ensures ObserveAll(m, a + b, read) == ObserveAll(ObserveAll(m, a, read), b, read)
  {
    if b == [] {
      assert a + b == a;
    } else {
      var init, last := b[..|b| - 1], b[|b| - 1];
      assert b == init + [last] && a + b == (a + init) + [last];
      ObserveAllAppends(m, a, init, read);
      ObserveOneMore(m, a + init, last, read);
      ObserveOneMore(ObserveAll(m, a, read), init, last, read);
    }
  }

  // ---------------------------------------------------------------- when the quota flag is set

  lemma {:induction false} DocumentsMark(m: Meter, documents: seq<bytes>, read: Reader)
    ensures ObserveDocuments(m, documents, read).quotaGone
            <==> m.quotaGone || exists d :: d in documents && read(d).Some? && Limiting(read(d).value)
  {
    if documents != [] {
      var init := documents[..|documents| - 1];
      DocumentsMark(m, init, read);
      assert documents == init + [documents[|documents| - 1]];
    }
  }

  lemma ObservationMarks(m: Meter, text: bytes, read: Reader)
    ensures Observe(m, text, read).quotaGone <==> m.quotaGone || Limits(text, read)
  {
    DocumentsMark(m, Documents(text), read);
  }

  /** The quota flag is set exactly when it was, or some observed text reports the quota exhausted. */
  lemma {:induction false} TextsMark(m: Meter, texts: seq<bytes>, read: Reader)
    ensures ObserveAll(m, texts, read).quotaGone <==> m.quotaGone || exists t :: t in texts && Limits(t, read)
  {
    if texts != [] {
      var init, last := texts[..|texts| - 1], texts[|texts| - 1];
      TextsMark(m, init, read);
      ObservationMarks(ObserveAll(m, init, read), last, read);
      assert forall t :: t in texts <==> t in init || t == last;
    }
  }

  /** A quota error is counted once: the count is the flag. */
  predicate CountedOnce(m: Meter) { m.rateLimited == if m.quotaGone then 1 else 0 }

  lemma {:induction false} DocumentsCountOnce(m: Meter, documents: seq<bytes>, read: Reader)
    requires CountedOnce(m)
    ensures CountedOnce(ObserveDocuments(m, documents, read))
  {
    if documents != [] { DocumentsCountOnce(m, documents[..|documents| - 1], read); }
  }

  /** However many observed documents report the quota exhausted, in however many texts, one is counted. */
  lemma {:induction false} QuotaErrorsCountOnce(m: Meter, texts: seq<bytes>, read: Reader)
    requires CountedOnce(m)
    ensures CountedOnce(ObserveAll(m, texts, read))
  {
    if texts != [] {
      var init, last := texts[..|texts| - 1], texts[|texts| - 1];
      QuotaErrorsCountOnce(m, init, read);
      DocumentsCountOnce(ObserveAll(m, init, read), Documents(last), read);
    }
  }

  // ---------------------------------------------------------------- main results

  /** A finished line of the stream reports the quota exhausted. */
  predicate Exhausts(s: bytes, read: Reader) { exists t :: t in Finished(s) && Limits(t, read) }

  lemma ExhaustionStays(s: bytes, t: bytes, read: Reader)
    ensures Exhausts(s, read) ==> Exhausts(s + t, read)
  {
    LinesOfAppended(s, t);
  }

  /** Below the size limit the loop has seen the whole stream, line by line, or has broken off at a quota error. */
  lemma {:induction false} StreamFollowsLines(m: Meter, chunks: seq<bytes>, read: Reader)
    requires !m.quotaGone && |Joined(chunks)| <= SIZE_LIMIT
    ensures var f := ReceiveAll(m, chunks, true, read);
            var s := Joined(chunks);
            && (f.stopped <==> Exhausts(s, read))
            && (f.stopped ==> f.meter.quotaGone)
            && (!f.stopped ==>
                  f == Flow(ObserveAll(m, Finished(s), read), Rest(s), s, |s|, false) && !f.meter.quotaGone)
  {
    if chunks != [] {
      var init := chunks[..|chunks| - 1];
      var chunk := chunks[|chunks| - 1];
      StreamFollowsLines(m, init, read);
      ExhaustionStays(Joined(init), chunk, read);
      var f := ReceiveAll(m, init, true, read);
      if !f.stopped {
        LinesOfAppended(Joined(init), chunk);
        ObserveAllAppends(m, Finished(Joined(init)), Finished(Rest(Joined(init)) + chunk), read);
        TextsMark(m, Finished(Joined(chunks)), read);
      }
    }
  }

  /** Chunk independence: the texts observed are the lines of the whole stream, its unfinished end included, and what the
      client gets is the stream, however it was cut, unless a finished line reports the quota exhausted. */
  lemma MeteringFollowsLines(m: Meter, chunks: seq<bytes>, read: Reader)
    requires !m.quotaGone && |Joined(chunks)| <= SIZE_LIMIT && !Exhausts(Joined(chunks), read)
    ensures Metered(m, chunks, true, read) == ObserveAll(m, Lines(Joined(chunks)), read)
    ensures ReceiveAll(m, chunks, true, read).forwarded == Joined(chunks)
  {
    StreamFollowsLines(m, chunks, read);
    var lines := Lines(Joined(chunks));
    assert lines == Finished(Joined(chunks)) + [Rest(Joined(chunks))];
  }

  lemma TotalsIgnoreChunks(m: Meter, a: seq<bytes>, b: seq<bytes>, read: Reader)
    requires !m.quotaGone && Joined(a) == Joined(b) && |Joined(a)| <= SIZE_LIMIT && !Exhausts(Joined(a), read)
    ensures Metered(m, a, true, read) == Metered(m, b, true, read)
  {
    MeteringFollowsLines(m, a, read);
    MeteringFollowsLines(m, b, read);
  }

  /** Whether the quota is found exhausted never depends on how the stream was cut. */
  lemma QuotaIgnoresChunks(m: Meter, chunks: seq<bytes>, read: Reader)
    requires !m.quotaGone && |Joined(chunks)| <= SIZE_LIMIT
    ensures Metered(m, chunks, true, read).quotaGone <==> exists t :: t in Lines(Joined(chunks)) && Limits(t, read)
  {
    StreamFollowsLines(m, chunks, read);
    var s := Joined(chunks);
    var f := ReceiveAll(m, chunks, true, read);
    DocumentsMark(f.meter, Documents(f.body), read);
    assert Lines(s) == Finished(s) + [Rest(s)];
    if !f.stopped { TextsMark(m, Lines(s), read); }
  }

  /** The client always gets a prefix of the stream, within the size limit; all of it unless the loop broke off. */
  lemma {:induction false} ForwardedIsPrefix(m: Meter, chunks: seq<bytes>, streaming: bool, read: Reader)
    ensures var f := ReceiveAll(m, chunks, streaming, read);
            && |f.forwarded| <= SIZE_LIMIT
            && StartsWith(Joined(chunks), f.forwarded)
            && (!f.stopped ==> f.forwarded == Joined(chunks) && f.received == |Joined(chunks)|)
  {
    if chunks != [] {
      ForwardedIsPrefix(m, chunks[..|chunks| - 1], streaming, read);
    }
  }

  lemma {:induction false} StoppedForwardsLess(m: Meter, chunks: seq<bytes>, streaming: bool, read: Reader)
    requires forall i :: 0 <= i < |chunks| ==> chunks[i] != []
    ensures var f := ReceiveAll(m, chunks, streaming, read);
            f.stopped ==> |f.forwarded| < |Joined(chunks)|
  {
    if chunks != [] {
      StoppedForwardsLess(m, chunks[..|chunks| - 1], streaming, read);
      ForwardedIsPrefix(m, chunks[..|chunks| - 1], streaming, read);
    }
  }

  lemma {:induction false} OversizeStops(m: Meter, chunks: seq<bytes>, streaming: bool, read: Reader)
    requires |Joined(chunks)| > SIZE_LIMIT
    ensures ReceiveAll(m, chunks, streaming, read).stopped
  {
    ForwardedIsPrefix(m, chunks, streaming, read);
  }

  /** The client gets the exact stream if and only if it fits and no finished line reports the quota exhausted. */
  lemma StreamIsForwardedExactly(m: Meter, chunks: seq<bytes>, read: Reader)
    requires !m.quotaGone && forall i :: 0 <= i < |chunks| ==> chunks[i] != []
    ensures ReceiveAll(m, chunks, true, read).forwarded == Joined(chunks)
            <==> |Joined(chunks)| <= SIZE_LIMIT && !Exhausts(Joined(chunks), read)
  {
    StoppedForwardsLess(m, chunks, true, read);
    ForwardedIsPrefix(m, chunks, true, read);
    if |Joined(chunks)| > SIZE_LIMIT {
      OversizeStops(m, chunks, true, read);
    } else {
      StreamFollowsLines(m, chunks, read);
    }
  }

  /** A plain response is observed once, whole. */
  lemma {:induction false} PlainResponseIsObservedWhole(m: Meter, chunks: seq<bytes>, read: Reader)
    requires |Joined(chunks)| <= SIZE_LIMIT
    ensures ReceiveAll(m, chunks, false, read) == Flow(m, Joined(chunks), Joined(chunks), |Joined(chunks)|, false)
    ensures Metered(m, chunks, false, read) == Observe(m, Joined(chunks), read)
  {
    if chunks != [] { PlainResponseIsObservedWhole(m, chunks[..|chunks| - 1], read); }
  }

  lemma FirstChunkStops(m: Meter, chunk: bytes, read: Reader)
    requires |chunk| <= SIZE_LIMIT && ObserveAll(m, Finished(chunk), read).quotaGone && Rest(chunk) == []
    ensures ReceiveAll(m, [chunk], true, read) == Flow(ObserveAll(m, Finished(chunk), read), [], [], |chunk|, true)
  {
    assert [chunk][..0] == [];
    assert [] + chunk == chunk;
  }

  lemma OneFinishedLine(line: bytes)
    requires LF !in line
    ensures Finished(line + [LF]) == [line] && Rest(line + [LF]) == []
  {
    assert line + [LF] == line + [LF] + [];
    FirstLine(line + [LF], line, []);
    assert Finished([]) == [];
  }

  lemma TwoFinishedLines(a: bytes, b: bytes)
    requires LF !in a && LF !in b
    ensures Finished(a + [LF] + (b + [LF])) == [a, b] && Rest(a + [LF] + (b + [LF])) == []
  {
    OneFinishedLine(b);
    FirstLine(a + [LF] + (b + [LF]), a, b + [LF]);
  }

  lemma TwoObserved(m: Meter, a: bytes, b: bytes, read: Reader)
    ensures ObserveAll(m, [a], read) == Observe(m, a, read)
    ensures ObserveAll(m, [a, b], read) == Observe(Observe(m, a, read), b, read)
  {
    assert [a][..0] == [];
    assert [a, b][..1] == [a];
  }

  lemma QuotaErrorInOneChunk(m: Meter, error: bytes, usage: bytes, read: Reader)
    requires LF !in error && LF !in usage && |error| + |usage| + 2 <= SIZE_LIMIT && Limits(error, read)
    ensures Metered(m, [error + [LF] + (usage + [LF])], true, read) == Observe(Observe(Observe(m, error, read), usage, read), [], read)
  {
    var both := error + [LF] + (usage + [LF]);
    TwoFinishedLines(error, usage);
    TwoObserved(m, error, usage, read);
    ObservationMarks(m, error, read);
    ObservationMarks(Observe(m, error, read), usage, read);
    FirstChunkStops(m, both, read);
  }

  lemma QuotaErrorInFirstOfTwo(m: Meter, error: bytes, next: bytes, read: Reader)
    requires LF !in error && |error| + 1 <= SIZE_LIMIT && Limits(error, read)
    ensures Metered(m, [error + [LF], next], true, read) == Observe(Observe(m, error, read), [], read)
  {
    var first := error + [LF];
    OneFinishedLine(error);
    TwoObserved(m, error, [], read);
    ObservationMarks(m, error, read);
    FirstChunkStops(m, first, read);
    assert [first, next][..1] == [first];
    StoppedStays(m, [first, next], 1, true, read);
  }

  /** After a quota error totals do depend on the chunks: a line in the same chunk is still counted, in the next it is not. */
  lemma QuotaErrorHidesLaterChunks(m: Meter, error: bytes, usage: bytes, read: Reader)
    requires LF !in error && LF !in usage && |error| + |usage| + 2 <= SIZE_LIMIT && Limits(error, read)
    ensures var one, two := [error + [LF] + (usage + [LF])], [error + [LF], usage + [LF]];
            && Joined(one) == Joined(two)
            && Metered(m, one, true, read) == Observe(Observe(Observe(m, error, read), usage, read), [], read)
            && Metered(m, two, true, read) == Observe(Observe(m, error, read), [], read)
  {
    QuotaErrorInOneChunk(m, error, usage, read);
    QuotaErrorInFirstOfTwo(m, error, usage + [LF], read);
    var one, two := [error + [LF] + (usage + [LF])], [error + [LF], usage + [LF]];
    assert one[..0] == [] && two[..1] == [error + [LF]] && two[..1][..0] == [];
    assert Joined(two[..1]) == error + [LF];
  }

  // ---------------------------------------------------------------- when totals depend on the chunks

  /** The most that is read from the provider at once. */
  const CHUNK: nat := 8192

  /** A way to read the stream: chunks that are never empty and never too long. */
  ghost predicate Cuts(chunks: seq<bytes>, s: bytes)
  {
    Joined(chunks) == s && forall i :: 0 <= i < |chunks| ==> 0 < |chunks[i]| <= CHUNK
  }

  ghost predicate CutsAgree(m: Meter, s: bytes, read: Reader)
  {
    forall a, b :: Cuts(a, s) && Cuts(b, s) ==> Metered(m, a, true, read) == Metered(m, b, true, read)
  }

  function ChunkBefore(p: nat): (q: nat) { if p <= CHUNK then 0 else p - CHUNK }

  /** A place where a reading can break off: the quota error is finished here, and was not one chunk before. */
  ghost predicate StopAt(s: bytes, p: nat, read: Reader)
  {
    p <= |s| && Exhausts(s[..p], read) && !Exhausts(s[..ChunkBefore(p)], read)
  }

  /** Every place where a reading can break off leaves the same meter. */
  ghost predicate StopsAgree(m: Meter, s: bytes, read: Reader)
  {
    forall p: nat, q: nat :: StopAt(s, p, read) && StopAt(s, q, read) ==>
      ObserveAll(m, Lines(s[..p]), read) == ObserveAll(m, Lines(s[..q]), read)
  }

  lemma LinesObserved(m: Meter, s: bytes, read: Reader)
    ensures Observe(ObserveAll(m, Finished(s), read), Rest(s), read) == ObserveAll(m, Lines(s), read)
  {
    assert Lines(s) == Finished(s) + [Rest(s)];
    ObserveOneMore(m, Finished(s), Rest(s), read);
  }

  /** A loop that had not broken off before its last chunk has metered all it read. */
  lemma LastChunkIsMetered(m: Meter, chunks: seq<bytes>, read: Reader)
    requires !m.quotaGone && chunks != [] && |Joined(chunks)| <= SIZE_LIMIT
    requires !ReceiveAll(m, chunks[..|chunks| - 1], true, read).stopped
    ensures Metered(m, chunks, true, read) == ObserveAll(m, Lines(Joined(chunks)), read)
  {
    var init, chunk := chunks[..|chunks| - 1], chunks[|chunks| - 1];
    StreamFollowsLines(m, init, read);
    LinesOfAppended(Joined(init), chunk);
    ObserveAllAppends(m, Finished(Joined(init)), Finished(Rest(Joined(init)) + chunk), read);
    LinesObserved(m, Joined(chunks), read);
  }

  lemma BreaksOffNow(m: Meter, chunks: seq<bytes>, read: Reader)
    requires !m.quotaGone && chunks != [] && |Joined(chunks)| <= SIZE_LIMIT && |chunks[|chunks| - 1]| <= CHUNK
    requires !ReceiveAll(m, chunks[..|chunks| - 1], true, read).stopped && ReceiveAll(m, chunks, true, read).stopped
    ensures StopAt(Joined(chunks), |Joined(chunks)|, read)
  {
    var init, s := chunks[..|chunks| - 1], Joined(chunks);
    StreamFollowsLines(m, init, read);
    StreamFollowsLines(m, chunks, read);
    assert s[..|s|] == s && s[..|Joined(init)|] == Joined(init);
    NotYetExhausted(s, ChunkBefore(|s|), |Joined(init)|, read);
  }

  lemma StopStays(s: bytes, t: bytes, p: nat, read: Reader)
    requires StopAt(s, p, read)
    ensures StopAt(s + t, p, read) && (s + t)[..p] == s[..p]
  {
    assert (s + t)[..p] == s[..p] && (s + t)[..ChunkBefore(p)] == s[..ChunkBefore(p)];
  }

  /** A loop that breaks off has metered the stream up to a place where it can, and no more. */
  lemma {:induction false} StoppedAtPrefix(m: Meter, chunks: seq<bytes>, read: Reader) returns (p: nat)
    requires !m.quotaGone && |Joined(chunks)| <= SIZE_LIMIT && ReceiveAll(m, chunks, true, read).stopped
    requires Cuts(chunks, Joined(chunks))
    ensures StopAt(Joined(chunks), p, read)
    ensures Metered(m, chunks, true, read) == ObserveAll(m, Lines(Joined(chunks)[..p]), read)
  {
    var init, chunk := chunks[..|chunks| - 1], chunks[|chunks| - 1];
    if ReceiveAll(m, init, true, read).stopped {
      p := StoppedAtPrefix(m, init, read);
      StopStays(Joined(init), chunk, p, read);
    } else {
      p := |Joined(chunks)|;
      assert Joined(chunks)[..p] == Joined(chunks);
      LastChunkIsMetered(m, chunks, read);
      BreaksOffNow(m, chunks, read);
    }
  }

  lemma NotYetExhausted(s: bytes, p: nat, q: nat, read: Reader)
    requires p <= q <= |s| && !Exhausts(s[..q], read)
    ensures !Exhausts(s[..p], read)
  {
    assert s[..q] == s[..p] + s[p..q];
    ExhaustionStays(s[..p], s[p..q], read);
  }

  function Pieces(s: bytes): (chunks: seq<bytes>)
  {
    if s == [] then [] else Pieces(s[..ChunkBefore(|s|)]) + [s[ChunkBefore(|s|)..]]
  }

  lemma {:induction false} PiecesCut(s: bytes)
    ensures Cuts(Pieces(s), s)
  {
    if s != [] {
      var init := Pieces(s[..ChunkBefore(|s|)]);
      PiecesCut(s[..ChunkBefore(|s|)]);
      CutsGoOn(init, s[..ChunkBefore(|s|)], s[ChunkBefore(|s|)..]);
      assert s[..ChunkBefore(|s|)] + s[ChunkBefore(|s|)..] == s;
    }
  }

  lemma CutsGoOn(chunks: seq<bytes>, s: bytes, chunk: bytes)
    requires Cuts(chunks, s) && 0 < |chunk| <= CHUNK
    ensures Cuts(chunks + [chunk], s + chunk)
  {
    assert (chunks + [chunk])[..|chunks|] == chunks;
  }

  lemma {:induction false} CutsJoin(a: seq<bytes>, s: bytes, b: seq<bytes>, t: bytes)
    requires Cuts(a, s) && Cuts(b, t)
    ensures Cuts(a + b, s + t)
  {
    if b == [] {
      assert a + b == a && s + t == s;
    } else {
      var init, chunk := b[..|b| - 1], b[|b| - 1];
      assert Cuts(init, Joined(init));
      CutsJoin(a, s, init, Joined(init));
      CutsGoOn(a + init, s + Joined(init), chunk);
      assert (a + init) + [chunk] == a + b && (s + Joined(init)) + chunk == s + t;
    }
  }

  lemma ReachesPlace(m: Meter, s: bytes, p: nat, read: Reader) returns (chunks: seq<bytes>)
    requires !m.quotaGone && |s| <= SIZE_LIMIT && StopAt(s, p, read)
    ensures Cuts(chunks, s[..p]) && ReceiveAll(m, chunks, true, read).stopped
    ensures Metered(m, chunks, true, read) == ObserveAll(m, Lines(s[..p]), read)
  {
    var q := ChunkBefore(p);
    var before := Pieces(s[..q]);
    NothingExhaustsEmpty(read);
    PiecesCut(s[..q]);
    CutsGoOn(before, s[..q], s[q..p]);
    assert s[..q] + s[q..p] == s[..p];
    chunks := before + [s[q..p]];
    assert chunks[..|before|] == before;
    StreamFollowsLines(m, before, read);
    StreamFollowsLines(m, chunks, read);
    LastChunkIsMetered(m, chunks, read);
  }

  /** Every place where a reading can break off is where some reading does. */
  lemma StopsAtPlace(m: Meter, s: bytes, p: nat, read: Reader) returns (chunks: seq<bytes>)
    requires !m.quotaGone && |s| <= SIZE_LIMIT && StopAt(s, p, read)
    ensures Cuts(chunks, s) && Metered(m, chunks, true, read) == ObserveAll(m, Lines(s[..p]), read)
  {
    var first := ReachesPlace(m, s, p, read);
    var rest := Pieces(s[p..]);
    PiecesCut(s[p..]);
    CutsJoin(first, s[..p], rest, s[p..]);
    assert s[..p] + s[p..] == s && (first + rest)[..|first|] == first;
    chunks := first + rest;
    StoppedStays(m, chunks, |first|, true, read);
  }

  lemma NothingExhaustsEmpty(read: Reader)
    ensures !Exhausts([], read)
  {
    assert Finished([]) == [];
  }

  lemma TwoCutsAgree(m: Meter, s: bytes, a: seq<bytes>, b: seq<bytes>, read: Reader)
    requires !m.quotaGone && |s| <= SIZE_LIMIT && Cuts(a, s) && Cuts(b, s) && StopsAgree(m, s, read)
    ensures Metered(m, a, true, read) == Metered(m, b, true, read)
  {
    StreamFollowsLines(m, a, read);
    StreamFollowsLines(m, b, read);
    if Exhausts(s, read) {
      var p := StoppedAtPrefix(m, a, read);
      var q := StoppedAtPrefix(m, b, read);
    } else {
      TotalsIgnoreChunks(m, a, b, read);
    }
  }

  lemma TwoStopsAgree(m: Meter, s: bytes, p: nat, q: nat, read: Reader)
    requires !m.quotaGone && |s| <= SIZE_LIMIT && StopAt(s, p, read) && StopAt(s, q, read) && CutsAgree(m, s, read)
    ensures ObserveAll(m, Lines(s[..p]), read) == ObserveAll(m, Lines(s[..q]), read)
  {
    var a := StopsAtPlace(m, s, p, read);
    var b := StopsAtPlace(m, s, q, read);
  }

  /** All ways of reading a stream that fits give the same meter if and only if every place where a reading can break off
      at a quota error leaves the same one. */
  lemma CutsAgreeExactly(m: Meter, s: bytes, read: Reader)
    requires !m.quotaGone && |s| <= SIZE_LIMIT
    ensures CutsAgree(m, s, read) <==> StopsAgree(m, s, read)
  {
    if StopsAgree(m, s, read) {
      forall a, b | Cuts(a, s) && Cuts(b, s) ensures Metered(m, a, true, read) == Metered(m, b, true, read) {
        TwoCutsAgree(m, s, a, b, read);
      }
    }
    if CutsAgree(m, s, read) {
      forall p: nat, q: nat | StopAt(s, p, read) && StopAt(s, q, read)
        ensures ObserveAll(m, Lines(s[..p]), read) == ObserveAll(m, Lines(s[..q]), read)
      {
        TwoStopsAgree(m, s, p, q, read);
      }
    }
  }

  /** A reader for which the byte 1 is a quota error and the byte 2 reports five prompt tokens. */
  function TwoReports(document: bytes): (result: Option<Report>)
  {
    if document == [1] then Some(Report(ErrorBody("1302", Untyped), 0, 0))
    else if document == [2] then Some(Report(NO_ERROR, 5, 0))
    else None
  }

  const UNUSED := Meter(0, 0, 0, false, None)

  lemma ShortDocument(text: bytes)
    requires |text| <= 1
    ensures Documents(text) == [text]
  {
    if |text| == 1 { assert !Contains(text[1..], DATA); }
  }

  lemma ShortObserved(m: Meter, text: bytes, read: Reader)
    requires |text| <= 1
    ensures Observe(m, text, read) == ObserveDocument(m, text, read)
  {
    ShortDocument(text);
    assert [text][..0] == [];
    assert ObserveDocuments(m, [], read) == m;
    assert ObserveDocuments(m, [text], read) == ObserveDocument(m, text, read);
  }

  lemma TwoReportsObserved(m: Meter)
    ensures Observe(m, [], TwoReports) == m
    ensures Observe(m, [1], TwoReports) == Marked(m, None)
    ensures Observe(m, [2], TwoReports) == m.(inputTokens := m.inputTokens + 5)
  {
    ShortObserved(m, [], TwoReports);
    ShortObserved(m, [1], TwoReports);
    ShortObserved(m, [2], TwoReports);
  }

  lemma ErrorByteLimits()
    ensures Limits([1], TwoReports)
  {
    ShortDocument([1]);
    assert [1] in Documents([1]) && TwoReports([1]) == Some(Report(ErrorBody("1302", Untyped), 0, 0));
  }

  lemma ReadTogether()
    ensures Metered(UNUSED, [[1, LF, 2, LF]], true, TwoReports) == Marked(UNUSED, None).(inputTokens := 5)
  {
    ErrorByteLimits();
    QuotaErrorInOneChunk(UNUSED, [1], [2], TwoReports);
    assert [1] + [LF] + ([2] + [LF]) == [1, LF, 2, LF];
    TwoReportsObserved(UNUSED);
    TwoReportsObserved(Marked(UNUSED, None));
    TwoReportsObserved(Marked(UNUSED, None).(inputTokens := 5));
  }

  lemma ReadApart()
    ensures Metered(UNUSED, [[1, LF], [2, LF]], true, TwoReports) == Marked(UNUSED, None)
  {
    ErrorByteLimits();
    QuotaErrorInFirstOfTwo(UNUSED, [1], [2, LF], TwoReports);
    assert [1] + [LF] == [1, LF];
    TwoReportsObserved(UNUSED);
    TwoReportsObserved(Marked(UNUSED, None));
  }

  lemma BothCut()
    ensures Cuts([[1, LF, 2, LF]], [1, LF, 2, LF]) && Cuts([[1, LF], [2, LF]], [1, LF, 2, LF])
  {
    assert Cuts([], []);
    CutsGoOn([], [], [1, LF, 2, LF]);
    assert [] + [[1, LF, 2, LF]] == [[1, LF, 2, LF]] && [] + [1, LF, 2, LF] == [1, LF, 2, LF];
    CutsGoOn([], [], [1, LF]);
    assert [] + [[1, LF]] == [[1, LF]] && [] + [1, LF] == [1, LF];
    CutsGoOn([[1, LF]], [1, LF], [2, LF]);
    assert [[1, LF]] + [[2, LF]] == [[1, LF], [2, LF]] && [1, LF] + [2, LF] == [1, LF, 2, LF];
  }

  /** One stream, two ways to read it, five tokens apart. */
  lemma TotalsDiffer()
    ensures Metered(UNUSED, [[1, LF, 2, LF]], true, TwoReports).inputTokens == 5
    ensures Metered(UNUSED, [[1, LF], [2, LF]], true, TwoReports).inputTokens == 0
    ensures !CutsAgree(UNUSED, [1, LF, 2, LF], TwoReports)
  {
    ReadTogether();
    ReadApart();
    BothCut();
  }

  // ---------------------------------------------------------------- the gateway

  class Gateway {
    var meter: Meter
    /** Bytes written to the client. */
    var forwarded: bytes

    constructor ()
      ensures meter == Meter(0, 0, 0, false, None) && forwarded == [] && CountedOnce(meter)
    {
      meter, forwarded := Meter(0, 0, 0, false, None), [];
    }

    /** Sets the flag and the newest delay, and keeps the count at one however often it is called. */
    method MarkQuota(delay: Option<int>)
      modifies this
      ensures meter.quotaGone && meter.retryAfter == delay
      ensures CountedOnce(old(meter)) ==> CountedOnce(meter)
      ensures old(meter.quotaGone) ==> meter == old(meter).(retryAfter := delay)
      ensures meter == Marked(old(meter), delay) && forwarded == old(forwarded)
    {
      if !meter.quotaGone { meter := meter.(rateLimited := meter.rateLimited + 1); }
      meter := meter.(retryAfter := delay);
      meter := meter.(quotaGone := true);
    }

    /** A response that is not a success. Nothing is forwarded and no token is counted. An account error never marks the
        quota, whatever the status; a 429 without one always does; any other answer does exactly when its error names the
        quota. A marked quota waits for the provider's delay, within its bounds. An error whose type cannot be looked up
        raises and marks nothing. */
    method RefuseResponse(status: int, error: ErrorBody, delay: ProviderQuota.Delay) returns (raised: bool)
      modifies this
      ensures forwarded == old(forwarded)
      ensures error.code in ACCOUNT_CODES ==> meter == old(meter) && !raised
      ensures status == TOO_MANY_REQUESTS && error.code !in ACCOUNT_CODES ==> meter.quotaGone && !raised
      ensures meter != old(meter) && status != TOO_MANY_REQUESTS ==> NamesQuota(error)
      ensures NamesQuota(error) && error.code !in ACCOUNT_CODES ==> meter.quotaGone && !raised
      ensures raised <==> error.kind.Unhashable? && status != TOO_MANY_REQUESTS && error.code !in ACCOUNT_CODES + QUOTA_CODES
      ensures raised ==> meter == old(meter)
      ensures meter != old(meter) ==>
                && meter == Marked(old(meter), meter.retryAfter)
                && (delay.Seconds? ==> meter.retryAfter.Some? && 60 <= meter.retryAfter.value <= 604800)
                && (!delay.Seconds? ==> meter.retryAfter.None?)
    {
      match Judge(status, error) {
        case Limited => MarkQuota(ProviderQuota.RetryAfter(delay));
        case NotLimited =>
        case Raises => return true;
      }
      raised := false;
    }

    method ObserveReport(document: bytes, read: Reader)
      modifies this
      ensures meter == ObserveDocument(old(meter), document, read) && forwarded == old(forwarded)
    {
      var report := read(document);
      if report.Some? {
        if Limiting(report.value) { MarkQuota(None); }
        meter := meter.(inputTokens := meter.inputTokens + Amount(report.value.prompt));
        meter := meter.(outputTokens := meter.outputTokens + Amount(report.value.completion));
      }
    }

    method ObserveUsage(text: bytes, read: Reader)
      modifies this
      ensures meter == Observe(old(meter), text, read) && forwarded == old(forwarded)
    {
      var documents := Documents(text);
      var i := 0;
      while i < |documents|
        invariant 0 <= i <= |documents|
        invariant meter == ObserveDocuments(old(meter), documents[..i], read) && forwarded == old(forwarded)
      {
        assert documents[..i + 1][..i] == documents[..i];
        ObserveReport(documents[i], read);
        i := i + 1;
      }
      assert documents[..i] == documents;
    }

    /** Observes every finished line of `body` and gives back the unfinished one. */
    method DrainLines(body: bytes, read: Reader) returns (rest: bytes)
      modifies this
      ensures meter == ObserveAll(old(meter), Finished(body), read) && rest == Rest(body) && forwarded == old(forwarded)
    {
      rest := body;
      ghost var seen := [];
      while LF in rest
        invariant Finished(body) == seen + Finished(rest) && Rest(body) == Rest(rest)
        invariant meter == ObserveAll(old(meter), seen, read) && forwarded == old(forwarded)
        decreases |rest|
      {
        var line, remaining := Partition(rest);
        FirstLine(rest, line, remaining);
        ObserveUsage(line, read);
        LineSeen(body, seen, rest, line, remaining);
        ObserveOneMore(old(meter), seen, line, read);
        seen := seen + [line];
        rest := remaining;
      }
      OneLine(rest);
      assert seen + [] == seen;
    }

    /** One chunk read: what is kept back of the body, and whether the loop breaks off. */
    method ReceiveChunk(body: bytes, received: nat, chunk: bytes, streaming: bool, read: Reader) returns (rest: bytes, stopped: bool)
      modifies this
      ensures Flow(meter, rest, forwarded, received + |chunk|, stopped)
              == Receive(Flow(old(meter), body, old(forwarded), received, false), chunk, streaming, read)
    {
      rest := body + chunk;
      if received + |chunk| > SIZE_LIMIT { return rest, true; }
      stopped := false;
      if streaming {
        rest := DrainLines(rest, read);
        stopped := meter.quotaGone;
      }
      if !stopped { forwarded := forwarded + chunk; }
    }

    /** The whole response; `chunks` are those read before its end, or before the job's capability expired. */
    method Relay(chunks: seq<bytes>, streaming: bool, read: Reader)
      requires forwarded == []
      modifies this
      ensures meter == Metered(old(meter), chunks, streaming, read)
      ensures forwarded == ReceiveAll(old(meter), chunks, streaming, read).forwarded
    {
      ghost var before := meter;
      var body: bytes, received: nat, stopped := [], 0, false;
      var k := 0;
      while k < |chunks| && !stopped
        invariant 0 <= k <= |chunks|
        invariant ReceiveAll(before, chunks[..k], streaming, read) == Flow(meter, body, forwarded, received, stopped)
      {
        OneChunkMore(before, chunks, k, streaming, read);
        body, stopped := ReceiveChunk(body, received, chunks[k], streaming, read);
        received := received + |chunks[k]|;
        k := k + 1;
      }
      StoppedStays(before, chunks, k, streaming, read);
      ObserveUsage(body, read);
    }
  }

  lemma OneChunkMore(m: Meter, chunks: seq<bytes>, k: nat, streaming: bool, read: Reader)
    requires k < |chunks|
    ensures ReceiveAll(m, chunks[..k + 1], streaming, read)
            == Receive(ReceiveAll(m, chunks[..k], streaming, read), chunks[k], streaming, read)
  {
    assert chunks[..k + 1][..k] == chunks[..k];
  }

  lemma {:induction false} StoppedStays(m: Meter, chunks: seq<bytes>, k: nat, streaming: bool, read: Reader)
    requires k <= |chunks| && (k == |chunks| || ReceiveAll(m, chunks[..k], streaming, read).stopped)
    ensures ReceiveAll(m, chunks, streaming, read) == ReceiveAll(m, chunks[..k], streaming, read)
  {
    if k < |chunks| {
      assert chunks[..|chunks| - 1][..k] == chunks[..k];
      StoppedStays(m, chunks[..|chunks| - 1], k, streaming, read);
    } else {
      assert chunks[..k] == chunks;
    }
  }

  method Partition(s: bytes) returns (line: bytes, remaining: bytes)
    requires LF in s
    ensures s == line + [LF] + remaining && LF !in line
  {
    var i := 0;
    while s[i] != LF
      invariant 0 <= i < |s| && LF !in s[..i] && LF in s[i..]
      decreases |s| - i
    {
      assert s[i..] == [s[i]] + s[i + 1..];
      assert s[..i + 1] == s[..i] + [s[i]];
      i := i + 1;
    }
    line, remaining := s[..i], s[i + 1..];
    assert s == s[..i] + [s[i]] + s[i + 1..];
  }

  lemma LineSeen(body: bytes, seen: seq<bytes>, rest: bytes, line: bytes, remaining: bytes)
    requires Finished(body) == seen + Finished(rest) && Finished(rest) == [line] + Finished(remaining)
    ensures Finished(body) == (seen + [line]) + Finished(remaining)
  {
  }

  lemma {:induction false} OneLine(s: bytes)
    requires LF !in s
    ensures Lines(s) == [s]
  {
    if s != [] {
      OneLine(s[..|s| - 1]);
      assert s == s[..|s| - 1] + [s[|s| - 1]];
    }
  }

  lemma FirstLine(s: bytes, line: bytes, remaining: bytes)
    requires s == line + [LF] + remaining && LF !in line
    ensures Finished(s) == [line] + Finished(remaining) && Rest(s) == Rest(remaining)
  {
    OneLine(line);
    assert (line + [LF])[..|line|] == line;
    assert Lines(line + [LF]) == [line, []];
    LinesOfAppended(line + [LF], remaining);
    assert [] + remaining == remaining;
  }
}
