/** The client-side bulk import of shops from the rows of a pipe table
    (`| a | b | … |`): each table line becomes one shop record, and the
    records are inserted fifty at a time. The backend's answer per batch
    is an input. */
module BulkImport {
  import opened Text
  import opened Domain
  import Chunks

  const BatchSize: nat := 50
  const MaxName: nat := 255

  /** The record inserted into `shops`. */
  datatype ImportedShop = ImportedShop(
    name: string,
    bpCode: Option<string>,
    dslCode: Option<string>,
    district: Option<string>,
    town: Option<string>,
    contactPerson: Option<string>,
    isSuspended: bool)

  /** `line.split("|").map(c => c.trim())` */
  function Columns(line: string): (cols: seq<string>)
    ensures |cols| == |Split(line, '|')|
    ensures forall i :: 0 <= i < |cols| ==> cols[i] == Trim(Split(line, '|')[i])
  {
    var parts := Split(line, '|');
    seq(|parts|, i requires 0 <= i < |parts| => Trim(parts[i]))
  }

  /** `cols[i]`, with a missing column read as empty (it is falsy either
      way). */
  function Col(cols: seq<string>, i: nat): (c: string)
    ensures i < |cols| ==> c == cols[i]
    ensures i >= |cols| ==> c == ""
  {
    if i < |cols| then cols[i] else ""
  }

  /** `/^-+$/` */
  predicate IsDashes(s: string) {
    |s| > 0 && forall i :: 0 <= i < |s| ==> s[i] == '-'
  }

  /** The names with which a table line is not a shop: empty, the header
      "BP Name", or a separator of dashes. */
  predicate SkippedName(name: string) {
    name == "" || name == "BP Name" || IsDashes(name)
  }

  /** The column mapping: name in column 7 cut to 255 characters, codes and
      places in columns 2, 3, 6, 14 and 10 with empty read as null, and
      suspended exactly when column 8 is "Y". */
  function ShopOf(cols: seq<string>): (s: ImportedShop)
    ensures s.name == Truncate(Col(cols, 7), MaxName)
    ensures s.bpCode == NonEmpty(Col(cols, 2)) && s.dslCode == NonEmpty(Col(cols, 3))
    ensures s.district == NonEmpty(Col(cols, 6)) && s.town == NonEmpty(Col(cols, 14))
    ensures s.contactPerson == NonEmpty(Col(cols, 10))
    ensures s.isSuspended <==> Col(cols, 8) == "Y"
  {
    ImportedShop(Truncate(Col(cols, 7), MaxName), NonEmpty(Col(cols, 2)), NonEmpty(Col(cols, 3)),
                 NonEmpty(Col(cols, 6)), NonEmpty(Col(cols, 14)), NonEmpty(Col(cols, 10)), Col(cols, 8) == "Y")
  }

  /** The shop a line gives, if any. */
  function LineShop(line: string): (r: Option<ImportedShop>)
    ensures r.Some? ==> StartsWith(line, "|") && !SkippedName(Col(Columns(line), 7))
    ensures r.Some? ==> 0 < |r.value.name| <= MaxName && r.value == ShopOf(Columns(line))
    ensures r.None? ==> !StartsWith(line, "|") || SkippedName(Col(Columns(line), 7))
  {
    if !StartsWith(line, "|") then None
    else
      var cols := Columns(line);
      if SkippedName(Col(cols, 7)) then None else Some(ShopOf(cols))
  }

  /** The shops of the lines, in line order. */
  function ParsedShops(lines: seq<string>): (shops: seq<ImportedShop>)
    ensures |shops| <= |lines|
    decreases |lines|
  {
    if lines == [] then []
    else
      var rest := ParsedShops(lines[..|lines| - 1]);
      match LineShop(lines[|lines| - 1])
      case Some(s) => rest + [s]
      case None => rest
  }

  /** Every parsed shop comes from a table line whose name is kept, and has
      a name of 1 to 255 characters. */
  lemma {:induction false} ParsedFromTableLines(lines: seq<string>)
    ensures forall s :: s in ParsedShops(lines) ==>
              0 < |s.name| <= MaxName && exists l :: l in lines && LineShop(l) == Some(s)
    decreases |lines|
  {
    if lines != [] {
      var init := lines[..|lines| - 1];
      ParsedFromTableLines(init);
      assert forall l :: l in init ==> l in lines;
    }
  }

  /** The shop of one line, as a sequence of at most one element. */
  function ShopsOf(line: string): seq<ImportedShop> {
    match LineShop(line)
    case Some(s) => [s]
    case None => []
  }

  /** One more line adds its own shop, if any, at the end. */
  lemma ParsedSnoc(lines: seq<string>, x: string)
    ensures ParsedShops(lines + [x]) == ParsedShops(lines) + ShopsOf(x)
  {
    assert (lines + [x])[..|lines + [x]| - 1] == lines;
  }

  /** Parsing distributes over concatenation: each part of the text gives
      its own shops, in line order, wherever its lines stand. */
  lemma {:induction false} ParsedAppend(a: seq<string>, b: seq<string>)
    ensures ParsedShops(a + b) == ParsedShops(a) + ParsedShops(b)
    decreases |b|
  {
    if b == [] {
      assert a + b == a;
    } else {
      var init, x := b[..|b| - 1], b[|b| - 1];
      assert b == init + [x];
      assert a + b == (a + init) + [x];
      calc {
        ParsedShops(a + b);
        ParsedShops((a + init) + [x]);
        { ParsedSnoc(a + init, x); }
        ParsedShops(a + init) + ShopsOf(x);
        { ParsedAppend(a, init); }
        ParsedShops(a) + ParsedShops(init) + ShopsOf(x);
        { ParsedSnoc(init, x); }
        ParsedShops(a) + ParsedShops(b);
      }
    }
  }

  /** Lines that are not table rows change nothing. */
  lemma {:induction false} NonTableLinesIgnored(lines: seq<string>, extra: seq<string>)
    requires forall i :: 0 <= i < |extra| ==> !StartsWith(extra[i], "|")
    ensures ParsedShops(lines + extra) == ParsedShops(lines)
    decreases |extra|
  {
    if extra == [] {
      assert lines + extra == lines;
    } else {
      var init := extra[..|extra| - 1];
      assert (lines + extra)[..|lines + extra| - 1] == lines + init;
      NonTableLinesIgnored(lines, init);
    }
  }

  /** The parsing loop. */
  method ParseLines(rawLines: seq<string>) returns (shops: seq<ImportedShop>)
    ensures shops == ParsedShops(rawLines)
  {
    shops := [];
    var i := 0;
    while i < |rawLines|
      invariant 0 <= i <= |rawLines|
      invariant shops == ParsedShops(rawLines[..i])
    {
      var line := rawLines[i];
      assert rawLines[..i + 1][..i] == rawLines[..i];
      if StartsWith(line, "|") {
        var cols := Columns(line);
        var name := Col(cols, 7);
        if !SkippedName(name) {
          shops := shops + [ShopOf(cols)];
        }
      }
      i := i + 1;
    }
    assert rawLines[..i] == rawLines;
  }

  /** `Batch ${index}: ${message}` */
  function BatchMessage(e: Chunks.ChunkError): string {
    "Batch " + Decimal(e.index) + ": " + e.message
  }

  function Messages(errors: seq<Chunks.ChunkError>): (r: seq<string>)
    ensures |r| == |errors|
    ensures forall i :: 0 <= i < |errors| ==> r[i] == BatchMessage(errors[i])
  {
    seq(|errors|, i requires 0 <= i < |errors| => BatchMessage(errors[i]))
  }

  /** `bulkImportShops`: parse, then insert in batches of fifty; `failures`
      maps each rejected batch to the backend's message. `inserted` counts
      the shops of the accepted batches; there is one error per rejected
      batch, in batch order, and every batch is tried. */
  method BulkImportShops(rawLines: seq<string>, failures: map<nat, string>)
      returns (inserted: nat, errors: seq<string>)
    ensures var t := Chunks.Run(ParsedShops(rawLines), BatchSize, 0, failures);
            inserted == |t.succeeded| && errors == Messages(t.errors)
    ensures inserted <= |ParsedShops(rawLines)|
  {
    var shops := ParseLines(rawLines);
    var successCount, failCount, batchErrors := Chunks.SendInChunks(shops, BatchSize, failures);
    inserted := successCount;
    errors := Messages(batchErrors);
  }

  /** When every batch is accepted, every parsed shop is inserted and no
      error is reported. */
  lemma AllBatchesAccepted(rawLines: seq<string>)
    ensures var t := Chunks.Run(ParsedShops(rawLines), BatchSize, 0, map[]);
            |t.succeeded| == |ParsedShops(rawLines)| && Messages(t.errors) == []
  {
    Chunks.RunAllSucceed(ParsedShops(rawLines), BatchSize, 0, map[]);
  }
}
