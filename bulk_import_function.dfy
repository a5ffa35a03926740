/** The server function that imports shops from a pipe table fetched from
    a URL: the request handling, the line parser (which also accepts lines
    numbered "7: |…|") and the insertion in batches of fifty. Fetching the
    file and each batch insert are inputs. */
module BulkImportFunction {
  import opened Text
  import opened Domain
  import Chunks
  import BulkImport

  /** Removes a leading line number: a run of digits, a colon, and the
      whitespace after the colon. */
  function StripLineNumber(line: string): (r: string)
    ensures |r| <= |line|
  {
    var k := LeadingDigits(line);
    if k > 0 && k < |line| && line[k] == ':' then TrimStart(line[k + 1..]) else line
  }

  /** The server also drops the placeholder name "N". */
  predicate SkippedName(name: string) {
    BulkImport.SkippedName(name) || name == "N"
  }

  function LineShop(line: string): (r: Option<BulkImport.ImportedShop>)
    ensures r.Some? ==> StartsWith(StripLineNumber(line), "|")
                        && !SkippedName(BulkImport.Col(BulkImport.Columns(StripLineNumber(line)), 7))
    ensures r.Some? ==> r.value == BulkImport.ShopOf(BulkImport.Columns(StripLineNumber(line)))
    ensures r.Some? ==> 0 < |r.value.name| <= BulkImport.MaxName && r.value.name != "N"
    ensures r.None? ==> !StartsWith(StripLineNumber(line), "|")
                        || SkippedName(BulkImport.Col(BulkImport.Columns(StripLineNumber(line)), 7))
  {
    var l := StripLineNumber(line);
    if !StartsWith(l, "|") then None
    else
      var cols := BulkImport.Columns(l);
      if SkippedName(BulkImport.Col(cols, 7)) then None else Some(BulkImport.ShopOf(cols))
  }

  function ParsedShops(lines: seq<string>): (shops: seq<BulkImport.ImportedShop>)
    ensures |shops| <= |lines|
    decreases |lines|
  {
    if lines == [] then []
    else
      var rest := ParsedShops(lines[..|lines| - 1]);
      match LineShop(lines[|lines| - 1])
      case Some(s) => rest + [s]
      case None => rest
  }

  /** The shop of one line, as a sequence of at most one element. */
  function ShopsOf(line: string): seq<BulkImport.ImportedShop> {
    match LineShop(line)
    case Some(s) => [s]
    case None => []
  }

  /** One more line adds its own shop, if any, at the end. */
  lemma ParsedSnoc(lines: seq<string>, x: string)
    ensures ParsedShops(lines + [x]) == ParsedShops(lines) + ShopsOf(x)
  {
    assert (lines + [x])[..|lines + [x]| - 1] == lines;
  }

  /** Parsing distributes over concatenation: each part of the text gives
      its own shops, in line order, wherever its lines stand. */
  lemma {:induction false} ParsedAppend(a: seq<string>, b: seq<string>)
    ensures ParsedShops(a + b) == ParsedShops(a) + ParsedShops(b)
    decreases |b|
  {
    if b == [] {
      assert a + b == a;
    } else {
      var init, x := b[..|b| - 1], b[|b| - 1];
      assert b == init + [x];
      assert a + b == (a + init) + [x];
      calc {
        ParsedShops(a + b);
        ParsedShops((a + init) + [x]);
        { ParsedSnoc(a + init, x); }
        ParsedShops(a + init) + ShopsOf(x);
        { ParsedAppend(a, init); }
        ParsedShops(a) + ParsedShops(init) + ShopsOf(x);
        { ParsedSnoc(init, x); }
        ParsedShops(a) + ParsedShops(b);
      }
    }
  }

  /** `parseLines(text)`: the loop over the text's lines. */
  method ParseLines(text: string) returns (shops: seq<BulkImport.ImportedShop>)
    ensures shops == ParsedShops(Split(text, '\n'))
  {
    var lines := Split(text, '\n');
    shops := [];
    var i := 0;
    while i < |lines|
      invariant 0 <= i <= |lines|
      invariant shops == ParsedShops(lines[..i])
    {
      var line := StripLineNumber(lines[i]);
      assert lines[..i + 1][..i] == lines[..i];
      if StartsWith(line, "|") {
        var cols := BulkImport.Columns(line);
        var name := BulkImport.Col(cols, 7);
        if !SkippedName(name) {
          shops := shops + [BulkImport.ShopOf(cols)];
        }
      }
      i := i + 1;
    }
    assert lines[..i] == lines;
  }

  /** Leading whitespace before a non-space is removed exactly. */
  lemma {:induction false} TrimStartSpaces(sp: string, rest: string)
    requires forall i :: 0 <= i < |sp| ==> IsSpace(sp[i])
    requires rest != [] && !IsSpace(rest[0])
    ensures TrimStart(sp + rest) == rest
    decreases |sp|
  {
    var line := sp + rest;
    if sp == [] {
      assert line == rest;
      assert TrimStart(line) == line;
    } else {
      assert line[0] == sp[0] && IsSpace(line[0]);
      assert line[1..] == sp[1..] + rest;
      assert TrimStart(line) == TrimStart(line[1..]);
      TrimStartSpaces(sp[1..], rest);
    }
  }

  /** A numbered row "<digits>:<spaces>|…" is read as the row "|…". */
  lemma NumberedLine(digits: string, sp: string, row: string)
    requires |digits| > 0 && AllDigits(digits)
    requires forall i :: 0 <= i < |sp| ==> IsSpace(sp[i])
    requires StartsWith(row, "|")
    ensures StripLineNumber(digits + ":" + sp + row) == row
  {
    var line := digits + ":" + sp + row;
    assert line == digits + (":" + sp + row);
    LeadingDigitsOf(digits, ":" + sp + row);
    assert line[|digits|] == ':';
    assert line[|digits| + 1..] == sp + row;
    TrimStartSpaces(sp, row);
  }

  /** On lines without a number prefix and without the name "N", the server
      reads exactly the shops the client parser reads. */
  lemma {:induction false} AgreesWithClient(lines: seq<string>)
    requires forall i :: 0 <= i < |lines| ==> StripLineNumber(lines[i]) == lines[i]
    requires forall i :: 0 <= i < |lines| ==> BulkImport.Col(BulkImport.Columns(lines[i]), 7) != "N"
    ensures ParsedShops(lines) == BulkImport.ParsedShops(lines)
    decreases |lines|
  {
    if lines != [] {
      AgreesWithClient(lines[..|lines| - 1]);
    }
  }

  /** A table row never carries a number prefix. */
  lemma TableRowUnchanged(line: string)
    requires StartsWith(line, "|")
    ensures StripLineNumber(line) == line
  {
    assert line[0] == '|';
  }

  // ---------------------------------------------------------------------
  // The request handler

  datatype Body = Malformed(message: string) | Json(dataUrl: Option<string>)
  datatype Request = Preflight | Post(body: Body)
  /** The fetch of the data file and the reading of its text. */
  datatype Fetch = Fetched(text: string) | FetchFailed(message: string)

  datatype Response =
    | PreflightOk                                                  // "ok" with the CORS headers
    | BadRequest                                                   // 400, "No dataUrl provided"
    | ImportResult(inserted: nat, total: nat, errors: seq<string>) // 200
    | ServerError(message: string)                                 // 500

  /** The handler. A preflight is answered at once; a body that is not JSON
      or a failed fetch ends in a 500 with the error's message; a missing
      or empty `dataUrl` is refused with 400 before anything is fetched;
      otherwise the parsed shops are inserted in batches of fifty and the
      counts reported. */
  method Serve(req: Request, fetch: Fetch, failures: map<nat, string>) returns (resp: Response)
    ensures resp == PreflightOk <==> req.Preflight?
    ensures resp == BadRequest <==> req.Post? && req.body.Json? && (req.body.dataUrl.None? || req.body.dataUrl.value == "")
    ensures req.Post? && req.body.Malformed? ==> resp == ServerError(req.body.message)
    ensures resp.ImportResult? <==>
              req.Post? && req.body.Json? && req.body.dataUrl.Some? && req.body.dataUrl.value != "" && fetch.Fetched?
    ensures resp.ImportResult? ==>
              var shops := ParsedShops(Split(fetch.text, '\n'));
              var t := Chunks.Run(shops, BulkImport.BatchSize, 0, failures);
              resp.total == |shops| && resp.inserted == |t.succeeded| && resp.errors == BulkImport.Messages(t.errors)
              && resp.inserted <= resp.total
  {
    match req
    case Preflight =>
      return PreflightOk;
    case Post(body) =>
      match body
      case Malformed(m) =>
        return ServerError(m);
      case Json(dataUrl) =>
        if dataUrl.None? || dataUrl.value == "" {
          return BadRequest;
        }
        match fetch
        case FetchFailed(m) =>
          return ServerError(m);
        case Fetched(text) =>
          var shops := ParseLines(text);
          var successCount, failCount, errors := Chunks.SendInChunks(shops, BulkImport.BatchSize, failures);
          return ImportResult(successCount, |shops|, BulkImport.Messages(errors));
  }
}
