/** What an observed text adds to the meter, said of its bytes: which lines count, and what each of them counts. */
module UsageLines {
  import opened Contracts
  import opened QuotaErrors
  import opened StreamMetering

  // ---------------------------------------------------------------- one document

  /** An error of a successful response that means an exhausted quota. */
  ghost predicate Exhausted(error: ErrorBody) { error.code !in ACCOUNT_CODES && NamesQuota(error) }

  ghost function Within(n: int): (counted: nat) { if 0 <= n <= 10000000 then n else 0 }

  /** The meter after one document: its prompt tokens count as input and its completion tokens as output, each only from 0 to
      ten million; a quota error sets the flag, is counted if it is the first, and forgets the provider's delay. */
  ghost predicate Reads(m: Meter, next: Meter, document: bytes, read: Reader)
  {
    match read(document)
    case None => next == m
    case Some(report) =>
      && next.inputTokens == m.inputTokens + Within(report.prompt)
      && next.outputTokens == m.outputTokens + Within(report.completion)
      && next.quotaGone == (m.quotaGone || Exhausted(report.error))
      && next.rateLimited == m.rateLimited + (if Exhausted(report.error) && !m.quotaGone then 1 else 0)
      && next.retryAfter == (if Exhausted(report.error) then None else m.retryAfter)
  }

  lemma DocumentIsRead(m: Meter, document: bytes, read: Reader)
    ensures Reads(m, ObserveDocument(m, document, read), document, read)
  {
  }

  // ---------------------------------------------------------------- one line

  /** The payload of a line: the part without the spaces around it. */
  ghost predicate Trimmed(part: bytes, payload: bytes)
  {
    exists before, after :: Spaced(part, before, payload, after)
  }

  ghost predicate Spaced(part: bytes, before: bytes, payload: bytes, after: bytes)
  {
    && part == before + payload + after
    && (forall i :: 0 <= i < |before| ==> Space(before[i])) && (forall i :: 0 <= i < |after| ==> Space(after[i]))
    && (payload != [] ==> !Space(payload[0]) && !Space(payload[|payload| - 1]))
  }

  lemma {:induction false} LeftStripped(part: bytes) returns (before: bytes)
    ensures part == before + StripLeft(part)
    ensures forall i :: 0 <= i < |before| ==> Space(before[i])
    ensures StripLeft(part) != [] ==> !Space(StripLeft(part)[0])
    decreases |part|
  {
    before := [];
    if part != [] && Space(part[0]) {
      var more := LeftStripped(part[1..]);
      before := [part[0]] + more;
    }
  }

  lemma {:induction false} RightStripped(part: bytes) returns (after: bytes)
    ensures part == StripRight(part) + after
    ensures forall i :: 0 <= i < |after| ==> Space(after[i])
    ensures StripRight(part) != [] ==> !Space(StripRight(part)[|StripRight(part)| - 1])
    decreases |part|
  {
    after := [];
    if part != [] && Space(part[|part| - 1]) {
      var more := RightStripped(part[..|part| - 1]);
      after := more + [part[|part| - 1]];
    }
  }

  lemma StrippingTrims(part: bytes)
    ensures Trimmed(part, StripRight(StripLeft(part)))
  {
    var before := LeftStripped(part);
    var after := RightStripped(StripLeft(part));
    var payload := StripRight(StripLeft(part));
    if payload != [] { assert payload[0] == StripLeft(part)[0]; }
    assert Spaced(part, before, payload, after);
  }

  lemma {:induction false} LeftStripIsExact(before: bytes, rest: bytes)
    requires forall i :: 0 <= i < |before| ==> Space(before[i])
    requires rest != [] ==> !Space(rest[0])
    ensures StripLeft(before + rest) == rest
  {
    if before == [] {
      assert before + rest == rest;
    } else {
      assert (before + rest)[1..] == before[1..] + rest;
      LeftStripIsExact(before[1..], rest);
    }
  }

  lemma {:induction false} RightStripIsExact(rest: bytes, after: bytes)
    requires forall i :: 0 <= i < |after| ==> Space(after[i])
    requires rest != [] ==> !Space(rest[|rest| - 1])
    ensures StripRight(rest + after) == rest
  {
    if after == [] {
      assert rest + after == rest;
    } else {
      var n := |after| - 1;
      assert (rest + after)[..|rest| + n] == rest + after[..n];
      RightStripIsExact(rest, after[..n]);
    }
  }

  lemma {:induction false} SpacesStripToNothing(spaces: bytes)
    requires forall i :: 0 <= i < |spaces| ==> Space(spaces[i])
    ensures StripLeft(spaces) == []
  {
    if spaces != [] { SpacesStripToNothing(spaces[1..]); }
  }

  /** A part has one payload. */
  lemma TrimmedIsStripped(part: bytes, payload: bytes)
    requires Trimmed(part, payload)
    ensures payload == StripRight(StripLeft(part))
  {
    var before, after :| Spaced(part, before, payload, after);
    if payload == [] {
      assert part == before + after;
      SpacesStripToNothing(part);
    } else {
      assert part == before + (payload + after);
      LeftStripIsExact(before, payload + after);
      RightStripIsExact(payload, after);
    }
  }

  predicate Labelled(line: bytes) { |line| >= 5 && line[..5] == DATA }

  /** A line that starts with `data:` counts its payload, and any other adds nothing. */
  ghost predicate LineMoves(m: Meter, line: bytes, next: Meter, read: Reader)
  {
    if Labelled(line) then exists payload :: Trimmed(line[5..], payload) && Reads(m, next, payload, read) else next == m
  }

  /** `meters[i]` is the meter before line `i`. */
  ghost predicate LinesPath(lines: seq<bytes>, meters: seq<Meter>, read: Reader)
  {
    |meters| == |lines| + 1 && forall i :: 0 <= i < |lines| ==> LineMoves(meters[i], lines[i], meters[i + 1], read)
  }

  /** The meter moves through the lines in order. */
  ghost predicate LinesMove(m: Meter, lines: seq<bytes>, next: Meter, read: Reader)
  {
    exists meters :: LinesPath(lines, meters, read) && meters[0] == m && meters[|lines|] == next
  }

  lemma LinesMoveOn(m: Meter, lines: seq<bytes>, before: Meter, line: bytes, next: Meter, read: Reader)
    requires LinesMove(m, lines, before, read) && LineMoves(before, line, next, read)
    ensures LinesMove(m, lines + [line], next, read)
  {
    var meters :| LinesPath(lines, meters, read) && meters[0] == m && meters[|lines|] == before;
    var longer := meters + [next];
    forall i | 0 <= i < |lines + [line]| ensures LineMoves(longer[i], (lines + [line])[i], longer[i + 1], read) {
      if i < |lines| { assert LineMoves(meters[i], lines[i], meters[i + 1], read); }
    }
    assert LinesPath(lines + [line], longer, read);
  }

  lemma OneDataLine(line: bytes)
    ensures DataLines([line]) == if Labelled(line) then [StripRight(StripLeft(line[5..]))] else []
  {
    assert [line][1..] == [];
  }

  lemma FirstDataLine(lines: seq<bytes>)
    requires lines != []
    ensures DataLines(lines) == DataLines([lines[0]]) + DataLines(lines[1..])
  {
    OneDataLine(lines[0]);
  }

  lemma {:induction false} DataLinesAppend(lines: seq<bytes>, line: bytes)
    ensures DataLines(lines + [line]) == DataLines(lines) + DataLines([line])
    decreases |lines|
  {
    if lines == [] {
      assert lines + [line] == [line];
    } else {
      var rest := lines[1..];
      assert (lines + [line])[1..] == rest + [line];
      FirstDataLine(lines + [line]);
      FirstDataLine(lines);
      DataLinesAppend(rest, line);
    }
  }

  lemma {:induction false} LinesAreObserved(m: Meter, lines: seq<bytes>, read: Reader)
    ensures LinesMove(m, lines, ObserveDocuments(m, DataLines(lines), read), read)
  {
    if lines == [] {
      assert LinesPath(lines, [m], read);
    } else {
      var init, last := lines[..|lines| - 1], lines[|lines| - 1];
      assert lines == init + [last];
      LinesAreObserved(m, init, read);
      DataLinesAppend(init, last);
      OneDataLine(last);
      var documents, before := DataLines(init), ObserveDocuments(m, DataLines(init), read);
      if Labelled(last) {
        var payload := StripRight(StripLeft(last[5..]));
        assert (documents + [payload])[..|documents|] == documents;
        StrippingTrims(last[5..]);
        DocumentIsRead(before, payload, read);
      } else {
        assert documents + [] == documents;
      }
      LinesMoveOn(m, init, before, last, ObserveDocuments(m, DataLines(lines), read), read);
    }
  }

  // ---------------------------------------------------------------- a text and its lines

  datatype Piece = Piece(text: bytes, ending: bytes)

  function Flat(pieces: seq<Piece>): (s: bytes)
    decreases |pieces|
  {
    if pieces == [] then [] else pieces[0].text + pieces[0].ending + Flat(pieces[1..])
  }

  function Texts(pieces: seq<Piece>): (lines: seq<bytes>)
    decreases |pieces|
  {
    if pieces == [] then [] else [pieces[0].text] + Texts(pieces[1..])
  }

  /** No line break inside. */
  ghost predicate Plain(line: bytes) { LF !in line && CR !in line }

  /** A line and how it ends: at LF, CR or CR LF, taken together; the last may be cut off, and is not empty then. */
  ghost predicate EndsRight(piece: Piece, rest: bytes)
  {
    && Plain(piece.text)
    && (piece.ending == [LF] || piece.ending == [CR, LF] || (piece.ending == [CR] && (rest == [] || rest[0] != LF))
        || (piece.ending == [] && rest == [] && piece.text != []))
  }

  ghost predicate Cut(pieces: seq<Piece>)
    decreases |pieces|
  {
    pieces == [] || (EndsRight(pieces[0], Flat(pieces[1..])) && Cut(pieces[1..]))
  }

  lemma {:induction false} PlainIsCollected(line: bytes, rest: bytes, before: bytes)
    requires Plain(line)
    ensures SplitLines(line + rest, before) == SplitLines(rest, before + line)
    decreases |line|
  {
    if line == [] {
      assert line + rest == rest && before + line == before;
    } else {
      assert line[0] in line && Plain(line[1..]);
      assert (line + rest)[1..] == line[1..] + rest;
      assert (before + [line[0]]) + line[1..] == before + line;
      PlainIsCollected(line[1..], rest, before + [line[0]]);
    }
  }

  lemma EndingSplits(ending: bytes, rest: bytes, line: bytes)
    requires ending == [LF] || ending == [CR, LF] || (ending == [CR] && (rest == [] || rest[0] != LF))
    ensures SplitLines(ending + rest, line) == [line] + SplitLines(rest, [])
  {
    assert (ending + rest)[|ending|..] == rest;
  }

  /** However a text is cut into lines, those are the lines observed. */
  lemma {:induction false} CutIsSplit(pieces: seq<Piece>)
    requires Cut(pieces)
    ensures SplitLines(Flat(pieces), []) == Texts(pieces)
    decreases |pieces|
  {
    if pieces != [] {
      var p, rest := pieces[0], Flat(pieces[1..]);
      CutIsSplit(pieces[1..]);
      assert Flat(pieces) == p.text + (p.ending + rest);
      PlainIsCollected(p.text, p.ending + rest, []);
      assert [] + p.text == p.text;
      if p.ending == [] {
        assert p.ending + rest == [] && Texts(pieces[1..]) == SplitLines([], []);
      } else {
        EndingSplits(p.ending, rest, p.text);
      }
    }
  }

  /** The first line break, or the end. */
  lemma {:induction false} FirstBreak(s: bytes) returns (n: nat)
    ensures n <= |s| && Plain(s[..n]) && (n < |s| ==> s[n] == LF || s[n] == CR)
    decreases |s|
  {
    if s == [] || s[0] == LF || s[0] == CR {
      n := 0;
    } else {
      var k := FirstBreak(s[1..]);
      n := k + 1;
      assert s[..n] == [s[0]] + s[1..][..k];
    }
  }

  lemma {:induction false} EveryTextIsCut(s: bytes) returns (pieces: seq<Piece>)
    ensures Cut(pieces) && Flat(pieces) == s
    decreases |s|
  {
    pieces := [];
    if s != [] {
      var n := FirstBreak(s);
      var end := if n == |s| then n else if s[n] == CR && n + 1 < |s| && s[n + 1] == LF then n + 2 else n + 1;
      var more := EveryTextIsCut(s[end..]);
      pieces := [Piece(s[..n], s[n..end])] + more;
      assert pieces[1..] == more && s == s[..n] + s[n..end] + s[end..];
    }
  }

  // ---------------------------------------------------------------- a text

  ghost predicate At(text: bytes, part: bytes, i: nat) { i + |part| <= |text| && text[i..i + |part|] == part }

  ghost predicate Holds(text: bytes, part: bytes) { exists i :: At(text, part, i) }

  lemma AtNext(text: bytes, part: bytes, i: nat)
    requires text != []
    ensures At(text, part, i + 1) <==> At(text[1..], part, i)
  {
    if i + 1 + |part| <= |text| { assert text[1..][i..i + |part|] == text[i + 1..i + 1 + |part|]; }
  }

  lemma {:induction false} ContainsExactly(text: bytes, part: bytes)
    ensures Contains(text, part) <==> Holds(text, part)
    decreases |text|
  {
    if StartsWith(text, part) {
      assert At(text, part, 0);
    } else if text != [] {
      ContainsExactly(text[1..], part);
      forall i: nat ensures At(text, part, i + 1) <==> At(text[1..], part, i) { AtNext(text, part, i); }
      if Holds(text, part) {
        var i: nat :| At(text, part, i);
        assert i != 0;
        assert At(text[1..], part, i - 1);
      }
      if Holds(text[1..], part) {
        var i: nat :| At(text[1..], part, i);
        assert At(text, part, i + 1);
      }
    }
  }

  /** A text without `data:` anywhere is one document; any other is its lines, and only those that start with it count. */
  ghost predicate TextMoves(m: Meter, text: bytes, next: Meter, read: Reader)
  {
    if Holds(text, DATA) then forall pieces :: Cut(pieces) && Flat(pieces) == text ==> LinesMove(m, Texts(pieces), next, read)
    else Reads(m, next, text, read)
  }

  lemma OneDocument(m: Meter, document: bytes, read: Reader)
    ensures Reads(m, ObserveDocuments(m, [document], read), document, read)
  {
    assert [document][..0] == [];
    assert ObserveDocuments(m, [document][..0], read) == m;
    DocumentIsRead(m, document, read);
  }

  lemma TextIsObserved(m: Meter, text: bytes, read: Reader)
    ensures TextMoves(m, text, Observe(m, text, read), read)
  {
    ContainsExactly(text, DATA);
    if Holds(text, DATA) {
      forall pieces | Cut(pieces) && Flat(pieces) == text ensures LinesMove(m, Texts(pieces), Observe(m, text, read), read) {
        CutIsSplit(pieces);
        LinesAreObserved(m, Texts(pieces), read);
      }
    } else {
      OneDocument(m, text, read);
    }
  }

  /** A single `data:` line counts its payload. */
  lemma DataLineCounts(m: Meter, part: bytes, payload: bytes, read: Reader)
    requires Plain(part) && Trimmed(part, payload)
    ensures Reads(m, Observe(m, DATA + part, read), payload, read)
  {
    var line := DATA + part;
    assert At(line, DATA, 0) && line[5..] == part;
    ContainsExactly(line, DATA);
    PlainIsCollected(line, [], []);
    assert line + [] == line && [] + line == line;
    OneDataLine(line);
    TrimmedIsStripped(part, payload);
    OneDocument(m, payload, read);
  }

  // ---------------------------------------------------------------- a stream

  /** `meters[i]` is the meter before text `i`. */
  ghost predicate TextsPath(texts: seq<bytes>, meters: seq<Meter>, read: Reader)
  {
    |meters| == |texts| + 1 && forall i :: 0 <= i < |texts| ==> TextMoves(meters[i], texts[i], meters[i + 1], read)
  }

  /** The meter moves through the texts in order. */
  ghost predicate TextsMove(m: Meter, texts: seq<bytes>, next: Meter, read: Reader)
  {
    exists meters :: TextsPath(texts, meters, read) && meters[0] == m && meters[|texts|] == next
  }

  lemma TextsMoveOn(m: Meter, texts: seq<bytes>, before: Meter, text: bytes, next: Meter, read: Reader)
    requires TextsMove(m, texts, before, read) && TextMoves(before, text, next, read)
    ensures TextsMove(m, texts + [text], next, read)
  {
    var meters :| TextsPath(texts, meters, read) && meters[0] == m && meters[|texts|] == before;
    var longer := meters + [next];
    forall i | 0 <= i < |texts + [text]| ensures TextMoves(longer[i], (texts + [text])[i], longer[i + 1], read) {
      if i < |texts| { assert TextMoves(meters[i], texts[i], meters[i + 1], read); }
    }
    assert TextsPath(texts + [text], longer, read);
  }

  lemma {:induction false} TextsAreObserved(m: Meter, texts: seq<bytes>, read: Reader)
    ensures TextsMove(m, texts, ObserveAll(m, texts, read), read)
  {
    if texts == [] {
      assert TextsPath(texts, [m], read);
    } else {
      var init, last := texts[..|texts| - 1], texts[|texts| - 1];
      TextsAreObserved(m, init, read);
      var before := ObserveAll(m, init, read);
      TextIsObserved(before, last, read);
      assert texts == init + [last];
      ObserveOneMore(m, init, last, read);
      TextsMoveOn(m, init, before, last, Observe(before, last, read), read);
    }
  }

  /** The stream cut at each LF, with its unfinished end. */
  ghost predicate CutAtLF(s: bytes, texts: seq<bytes>)
  {
    texts != [] && (forall t :: t in texts ==> LF !in t) && s == EndedByLF(texts[..|texts| - 1]) + texts[|texts| - 1]
  }

  function EndedByLF(texts: seq<bytes>): (s: bytes)
  {
    if texts == [] then [] else EndedByLF(texts[..|texts| - 1]) + texts[|texts| - 1] + [LF]
  }

  lemma CutGoesOn(s: bytes, texts: seq<bytes>, b: byte)
    requires CutAtLF(s, texts)
    ensures b == LF ==> CutAtLF(s + [b], texts + [[]])
    ensures b != LF ==> CutAtLF(s + [b], texts[..|texts| - 1] + [texts[|texts| - 1] + [b]])
  {
    var init, last := texts[..|texts| - 1], texts[|texts| - 1];
    if b == LF {
      assert (texts + [[]])[..|texts|] == texts && EndedByLF(texts) == EndedByLF(init) + last + [LF];
    } else {
      var next := init + [last + [b]];
      assert next[..|init|] == init;
      forall t | t in next ensures LF !in t { if t in init { assert t in texts; } else { assert last in texts; } }
    }
  }

  lemma {:induction false} LinesCut(s: bytes)
    ensures CutAtLF(s, Lines(s))
  {
    if s != [] {
      LinesCut(s[..|s| - 1]);
      CutGoesOn(s[..|s| - 1], Lines(s[..|s| - 1]), s[|s| - 1]);
      assert s == s[..|s| - 1] + [s[|s| - 1]];
    }
  }

  /** A whole response: within the size limit, while no finished line reports the quota exhausted, the meter moves through the
      lines of the stream in order, however it was cut into chunks; a plain response is one text. */
  lemma ResponseIsCounted(m: Meter, chunks: seq<bytes>, streaming: bool, read: Reader)
    requires !m.quotaGone && |Joined(chunks)| <= SIZE_LIMIT && (streaming ==> !Exhausts(Joined(chunks), read))
    ensures streaming ==>
              CutAtLF(Joined(chunks), Lines(Joined(chunks)))
              && TextsMove(m, Lines(Joined(chunks)), Metered(m, chunks, true, read), read)
    ensures !streaming ==> TextMoves(m, Joined(chunks), Metered(m, chunks, false, read), read)
  {
    if streaming {
      MeteringFollowsLines(m, chunks, read);
      LinesCut(Joined(chunks));
      TextsAreObserved(m, Lines(Joined(chunks)), read);
    } else {
      PlainResponseIsObservedWhole(m, chunks, read);
      TextIsObserved(m, Joined(chunks), read);
    }
  }
}
