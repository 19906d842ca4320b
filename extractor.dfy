/**
 * The structured answer extractor: the top document the retriever ranks for a
 * question is parsed back, line by line, into a dict of product fields.
 */
module Extractor {
  import opened Wrappers
  import opened PyStr
  import opened PyDict
  import opened Catalog

  const NameKey := "name"
  const PriceKey := "price"
  const DescriptionKey := "description"
  const CategoriesKey := "categories"

  /** The only keys the parser ever writes. */
  const FieldKeys: set<string> := {NameKey, PriceKey, DescriptionKey, CategoriesKey}

  /**
   * The key a line is stored under, with the tag that selects it: the first
   * tag the line starts with, tested in the order name, price, description,
   * categories. A line that starts with no tag has none.
   */
  function LineTag(line: string): (r: Option<(string, string)>)
    ensures r.Some? ==> r.value.0 in FieldKeys && StartsWith(line, r.value.1) && |r.value.1| > 0
    ensures r.None? <==> !StartsWith(line, ProductTag) && !StartsWith(line, PriceTag)
                         && !StartsWith(line, DescriptionTag) && !StartsWith(line, CategoriesTag)
  {
    if StartsWith(line, ProductTag) then Some((NameKey, ProductTag))
    else if StartsWith(line, PriceTag) then Some((PriceKey, PriceTag))
    else if StartsWith(line, DescriptionTag) then Some((DescriptionKey, DescriptionTag))
    else if StartsWith(line, CategoriesTag) then Some((CategoriesKey, CategoriesTag))
    else None
  }

  /** The value a tagged line carries: EVERY occurrence of the tag removed, then stripped. */
  function TagValue(line: string, tag: string): (r: string)
    requires |tag| > 0
    ensures Unpadded(r)
    ensures StartsWith(line, tag) ==> r == Strip(RemoveAll(line[|tag|..], tag))
  {
    RemovePrefix(line, tag);
    Strip(RemoveAll(line, tag))
  }

  /** One step of the parse loop. */
  function ParseLine(line: string, data: Dict): (r: Dict)
    ensures LineTag(line).None? ==> r == data
    ensures LineTag(line).Some? ==> Get(r, LineTag(line).value.0) == Some(TagValue(line, LineTag(line).value.1))
    ensures forall k :: LineTag(line).Some? && k != LineTag(line).value.0 ==> Get(r, k) == Get(data, k)
  {
    match LineTag(line)
    case None => data
    case Some((k, tag)) => Put(data, k, TagValue(line, tag))
  }

  /** The parse loop over `lines`, starting from `data`: keys are only ever added, and only field keys. */
  function ParseLines(lines: seq<string>, data: Dict): (r: Dict)
    ensures Keys(data) <= Keys(r) <= Keys(data) + FieldKeys
    decreases |lines|
  {
    if |lines| == 0 then data else ParseLines(lines[1..], ParseLine(lines[0], data))
  }

  /** The parse loop keeps every key unique. */
  lemma {:induction false} ParseLinesUnique(lines: seq<string>, data: Dict)
    requires UniqueKeys(data)
    ensures UniqueKeys(ParseLines(lines, data))
    decreases |lines|
  {
    if |lines| > 0 {
      if LineTag(lines[0]).Some? {
        var (k, tag) := LineTag(lines[0]).value;
        PutUnique(data, k, TagValue(lines[0], tag));
      }
      ParseLinesUnique(lines[1..], ParseLine(lines[0], data));
    }
  }

  /** The loop of `respuesta_embeddings` over the lines of one document. */
  method ParseBlock(content: string) returns (data: Dict)
    ensures data == ParseLines(Split(content, '\n'), [])
    ensures Keys(data) <= FieldKeys
  {
    var lines := Split(content, '\n');
    data := [];
    for i := 0 to |lines|
      invariant ParseLines(lines[i..], data) == ParseLines(lines, [])
    {
      var line := lines[i];
      assert lines[i..][1..] == lines[i + 1..];
      if StartsWith(line, ProductTag) {
        data := Put(data, NameKey, Strip(RemoveAll(line, ProductTag)));
      } else if StartsWith(line, PriceTag) {
        data := Put(data, PriceKey, Strip(RemoveAll(line, PriceTag)));
      } else if StartsWith(line, DescriptionTag) {
        data := Put(data, DescriptionKey, Strip(RemoveAll(line, DescriptionTag)));
      } else if StartsWith(line, CategoriesTag) {
        data := Put(data, CategoriesKey, Strip(RemoveAll(line, CategoriesTag)));
      }
    }
    assert lines[|lines|..] == [];
  }

  /** The dict `respuesta_embeddings` returns for the ranked documents `results`. */
  function Extract(results: seq<string>): (r: Dict)
    ensures Keys(r) <= FieldKeys
    ensures |results| == 0 ==> r == []
  {
    if |results| == 0 then [] else ParseLines(Split(results[0], '\n'), [])
  }

  /** The dict extracted from the retrieved documents never repeats a key. */
  lemma ExtractUnique(results: seq<string>)
    ensures UniqueKeys(Extract(results))
  {
    if |results| > 0 {
      ParseLinesUnique(Split(results[0], '\n'), []);
    }
  }

  /**
   * `respuesta_embeddings`: the retriever ranks the documents for the
   * question; no document gives the empty dict, otherwise only the first is parsed.
   */
  method RespuestaEmbeddings(question: string, retriever: string -> seq<string>) returns (data: Dict)
    ensures data == Extract(retriever(question))
    ensures retriever(question) == [] ==> data == []
    ensures retriever(question) != [] ==> data == ParseLines(Split(retriever(question)[0], '\n'), [])
  {
    var results := retriever(question);
    if |results| > 0 {
      var doc := results[0];
      data := ParseBlock(doc);
    } else {
      data := [];
    }
  }

  // ---------------------------------------------------------------------------
  // Properties of the parse loop

  /** A line contributes a value under key `k`. */
  predicate Contributes(line: string, k: string) {
    LineTag(line).Some? && LineTag(line).value.0 == k
  }

  /** Parsing two runs of lines is parsing the second from where the first ended. */
  lemma {:induction false} ParseLinesConcat(xs: seq<string>, ys: seq<string>, d: Dict)
    ensures ParseLines(xs + ys, d) == ParseLines(ys, ParseLines(xs, d))
    decreases |xs|
  {
    if |xs| > 0 {
      assert (xs + ys)[1..] == xs[1..] + ys;
      ParseLinesConcat(xs[1..], ys, ParseLine(xs[0], d));
    } else {
      assert xs + ys == ys;
    }
  }

  /** A line that starts with no tag can be dropped without changing the result. */
  lemma UnmatchedLineIgnored(xs: seq<string>, line: string, ys: seq<string>, d: Dict)
    requires LineTag(line) == None
    ensures ParseLines(xs + [line] + ys, d) == ParseLines(xs + ys, d)
  {
    ParseLinesConcat(xs + [line], ys, d);
    ParseLinesConcat(xs, [line], d);
    ParseLinesConcat(xs, ys, d);
  }

  /** A key no line contributes keeps the value it had before the loop. */
  lemma {:induction false} UntouchedKey(lines: seq<string>, d: Dict, k: string)
    requires forall j :: 0 <= j < |lines| ==> !Contributes(lines[j], k)
    ensures Get(ParseLines(lines, d), k) == Get(d, k)
    decreases |lines|
  {
    if |lines| > 0 {
      assert !Contributes(lines[0], k);
      UntouchedKey(lines[1..], ParseLine(lines[0], d), k);
    }
  }

  /** A contributing line sets its key, whatever the dict held. */
  lemma ContributingLine(line: string, d: Dict, k: string)
    requires Contributes(line, k)
    ensures Get(ParseLine(line, d), k) == Some(TagValue(line, LineTag(line).value.1))
  {
  }

  /** When several lines carry the same tag, the last of them decides the value. */
  lemma LastWins(lines: seq<string>, d: Dict, i: nat, k: string)
    requires i < |lines| && Contributes(lines[i], k)
    requires forall j :: i < j < |lines| ==> !Contributes(lines[j], k)
    ensures Get(ParseLines(lines, d), k) == Some(TagValue(lines[i], LineTag(lines[i]).value.1))
  {
    var mid := ParseLines(lines[..i], d);
    var after := ParseLine(lines[i], mid);
    var rest := lines[i + 1..];
    assert ParseLines(lines, d) == ParseLines(lines[i..], mid) by {
      assert lines == lines[..i] + lines[i..];
      ParseLinesConcat(lines[..i], lines[i..], d);
    }
    assert ParseLines(lines[i..], mid) == ParseLines(rest, after) by {
      assert lines[i..][1..] == rest;
    }
    ContributingLine(lines[i], mid, k);
    forall j | 0 <= j < |rest|
      ensures !Contributes(rest[j], k)
    {
      assert rest[j] == lines[i + 1 + j];
    }
    UntouchedKey(rest, after, k);
  }

  // ---------------------------------------------------------------------------
  // The serialiser and the parser together

  lemma StartsWithAt(s: string, t: string, k: nat)
    requires StartsWith(s, t) && k < |t|
    ensures s[k] == t[k]
  {
    assert s[..|t|][k] == s[k];
  }

  /** The characters that tell the four tags apart. */
  lemma TagHeads(line: string)
    ensures StartsWith(line, ProductTag) ==> line[0] == 'P' && line[2] == 'o'
    ensures StartsWith(line, PriceTag) ==> line[0] == 'P' && line[2] == 'e'
    ensures StartsWith(line, DescriptionTag) ==> line[0] == 'D'
    ensures StartsWith(line, CategoriesTag) ==> line[0] == 'C'
  {
    if StartsWith(line, ProductTag) {
      StartsWithAt(line, ProductTag, 0);
      StartsWithAt(line, ProductTag, 2);
    }
    if StartsWith(line, PriceTag) {
      StartsWithAt(line, PriceTag, 0);
      StartsWithAt(line, PriceTag, 2);
    }
    if StartsWith(line, DescriptionTag) {
      StartsWithAt(line, DescriptionTag, 0);
    }
    if StartsWith(line, CategoriesTag) {
      StartsWithAt(line, CategoriesTag, 0);
    }
  }

  /** A line that carries a tag is read under that tag's key, whatever follows the tag. */
  lemma TaggedLineKey(line: string)
    ensures StartsWith(line, ProductTag) ==> LineTag(line) == Some((NameKey, ProductTag))
    ensures StartsWith(line, PriceTag) ==> LineTag(line) == Some((PriceKey, PriceTag))
    ensures StartsWith(line, DescriptionTag) ==> LineTag(line) == Some((DescriptionKey, DescriptionTag))
    ensures StartsWith(line, CategoriesTag) ==> LineTag(line) == Some((CategoriesKey, CategoriesTag))
  {
    TagHeads(line);
  }

  /** A line that carries a tag followed by anything starts with that tag. */
  lemma TaggedLineStarts(tag: string, field: string)
    ensures StartsWith(tag + " " + field, tag)
  {
    assert (tag + " " + field)[..|tag|] == tag;
  }

  /** The value of a tagged line is its field when the field is clean. */
  lemma TaggedValue(tag: string, field: string)
    requires |tag| > 0 && tag[0] != ' '
    requires !Contains(field, tag) && Unpadded(field)
    ensures TagValue(tag + " " + field, tag) == field
  {
    var s := " " + field;
    assert tag + " " + field == tag + s;
    RemoveLeading(tag, s);
    assert s[1..] == field;
    RemoveAbsent(field, tag);
    assert RemoveAll(s, tag) == s;
    StripLeadingSpace(field);
  }

  /**
   * A field survives the trip through its tagged line: no line break, no
   * occurrence of its own tag, no whitespace at either end.
   */
  predicate Clean(field: string, tag: string) {
    '\n' !in field && !Contains(field, tag) && Unpadded(field)
  }

  /**
   * Round trip: parsing the block of a product whose fields are clean gives
   * back the four fields, sentinels included, under their keys in block order.
   */
  lemma RoundTrip(p: Product)
    requires Clean(NameOf(p), ProductTag) && Clean(PriceOf(p), PriceTag)
    requires Clean(DescriptionOf(p), DescriptionTag) && Clean(CategoriesText(p), CategoriesTag)
    ensures ParseLines(Split(Serialize(p), '\n'), []) == [
              (NameKey, NameOf(p)), (PriceKey, PriceOf(p)),
              (DescriptionKey, DescriptionOf(p)), (CategoriesKey, CategoriesText(p))]
  {
    SerializedLines(p);
    ParseCleanLines(NameOf(p), PriceOf(p), DescriptionOf(p), CategoriesText(p));
  }

  /** The four tagged lines of clean fields parse to those fields, in order. */
  lemma ParseCleanLines(name: string, price: string, description: string, categories: string)
    requires Clean(name, ProductTag) && Clean(price, PriceTag)
    requires Clean(description, DescriptionTag) && Clean(categories, CategoriesTag)
    ensures ParseLines([ProductTag + " " + name, PriceTag + " " + price,
                        DescriptionTag + " " + description, CategoriesTag + " " + categories], []) ==
            [(NameKey, name), (PriceKey, price), (DescriptionKey, description), (CategoriesKey, categories)]
  {
    var d1 := [(NameKey, name)];
    var d2 := d1 + [(PriceKey, price)];
    var d3 := d2 + [(DescriptionKey, description)];
    var d4 := d3 + [(CategoriesKey, categories)];
    assert Keys([]) == {};
    NameLineAppends(name, []);
    PriceLineAppends(price, d1);
    DescriptionLineAppends(description, d2);
    CategoriesLineAppends(categories, d3);
    FourEntries((NameKey, name), (PriceKey, price), (DescriptionKey, description), (CategoriesKey, categories));
    ChainFour(ProductTag + " " + name, PriceTag + " " + price,
              DescriptionTag + " " + description, CategoriesTag + " " + categories, d1, d2, d3, d4);
  }

  /** Four single entries appended in turn form the four-entry dict. */
  lemma FourEntries(a: (string, string), b: (string, string), c: (string, string), e: (string, string))
    ensures [a] + [b] + [c] + [e] == [a, b, c, e]
  {
  }

  // One parse step per tag, for a clean field whose key is not yet in the dict.
  lemma NameLineAppends(field: string, d: Dict)
    requires Clean(field, ProductTag) && NameKey !in Keys(d)
    ensures ParseLine(ProductTag + " " + field, d) == d + [(NameKey, field)]
    ensures Keys(d + [(NameKey, field)]) == Keys(d) + {NameKey}
  {
    CleanLineAppends(ProductTag, NameKey, field, d);
  }

  lemma PriceLineAppends(field: string, d: Dict)
    requires Clean(field, PriceTag) && PriceKey !in Keys(d)
    ensures ParseLine(PriceTag + " " + field, d) == d + [(PriceKey, field)]
    ensures Keys(d + [(PriceKey, field)]) == Keys(d) + {PriceKey}
  {
    CleanLineAppends(PriceTag, PriceKey, field, d);
  }

  lemma DescriptionLineAppends(field: string, d: Dict)
    requires Clean(field, DescriptionTag) && DescriptionKey !in Keys(d)
    ensures ParseLine(DescriptionTag + " " + field, d) == d + [(DescriptionKey, field)]
    ensures Keys(d + [(DescriptionKey, field)]) == Keys(d) + {DescriptionKey}
  {
    CleanLineAppends(DescriptionTag, DescriptionKey, field, d);
  }

  lemma CategoriesLineAppends(field: string, d: Dict)
    requires Clean(field, CategoriesTag) && CategoriesKey !in Keys(d)
    ensures ParseLine(CategoriesTag + " " + field, d) == d + [(CategoriesKey, field)]
    ensures Keys(d + [(CategoriesKey, field)]) == Keys(d) + {CategoriesKey}
  {
    CleanLineAppends(CategoriesTag, CategoriesKey, field, d);
  }

  /** Four parse steps whose results are known give the result of the loop. */
  lemma ChainFour(l1: string, l2: string, l3: string, l4: string, d1: Dict, d2: Dict, d3: Dict, d4: Dict)
    requires ParseLine(l1, []) == d1 && ParseLine(l2, d1) == d2
    requires ParseLine(l3, d2) == d3 && ParseLine(l4, d3) == d4
    ensures ParseLines([l1, l2, l3, l4], []) == d4
  {
    ParseFour(l1, l2, l3, l4, []);
  }

  /** The parse loop over four lines, spelled out. */
  lemma ParseFour(l1: string, l2: string, l3: string, l4: string, d: Dict)
    ensures ParseLines([l1, l2, l3, l4], d) ==
            ParseLine(l4, ParseLine(l3, ParseLine(l2, ParseLine(l1, d))))
  {
    var d1 := ParseLine(l1, d);
    var d2 := ParseLine(l2, d1);
    var d3 := ParseLine(l3, d2);
    assert [l1, l2, l3, l4][1..] == [l2, l3, l4];
    assert ParseLines([l1, l2, l3, l4], d) == ParseLines([l2, l3, l4], d1);
    assert [l2, l3, l4][1..] == [l3, l4];
    assert ParseLines([l2, l3, l4], d1) == ParseLines([l3, l4], d2);
    assert [l3, l4][1..] == [l4];
    assert ParseLines([l3, l4], d2) == ParseLines([l4], d3);
    assert [l4][1..] == [];
    assert ParseLines([l4], d3) == ParseLines([], ParseLine(l4, d3));
  }

  /** A clean field's line, read into a dict without its key, appends the field. */
  lemma CleanLineAppends(tag: string, key: string, field: string, d: Dict)
    requires tag in {ProductTag, PriceTag, DescriptionTag, CategoriesTag}
    requires key == (if tag == ProductTag then NameKey else if tag == PriceTag then PriceKey
                     else if tag == DescriptionTag then DescriptionKey else CategoriesKey)
    requires Clean(field, tag) && key !in Keys(d)
    ensures ParseLine(tag + " " + field, d) == d + [(key, field)]
    ensures Keys(d + [(key, field)]) == Keys(d) + {key}
  {
    CleanLine(tag, key, field, d);
    PutNew(d, key, field);
  }

  /** A clean field's line stores the field under the tag's key. */
  lemma CleanLine(tag: string, key: string, field: string, d: Dict)
    requires tag in {ProductTag, PriceTag, DescriptionTag, CategoriesTag}
    requires key == (if tag == ProductTag then NameKey else if tag == PriceTag then PriceKey
                     else if tag == DescriptionTag then DescriptionKey else CategoriesKey)
    requires Clean(field, tag)
    ensures ParseLine(tag + " " + field, d) == Put(d, key, field)
  {
    TaggedLineStarts(tag, field);
    TaggedLineKey(tag + " " + field);
    TaggedValue(tag, field);
  }

  /** The first line of a run, when it contributes `k`, puts `k` in the dict for good. */
  lemma FirstLineKey(lines: seq<string>, d: Dict, k: string)
    requires |lines| > 0 && Contributes(lines[0], k)
    ensures k in Keys(ParseLines(lines, d))
  {
    assert ParseLines(lines, d) == ParseLines(lines[1..], ParseLine(lines[0], d));
  }

  /** The first line a tagged field becomes is read under the tag's key. */
  lemma FirstPieceTagged(tag: string, key: string, field: string)
    requires tag in {ProductTag, PriceTag, DescriptionTag, CategoriesTag}
    requires key == (if tag == ProductTag then NameKey else if tag == PriceTag then PriceKey
                     else if tag == DescriptionTag then DescriptionKey else CategoriesKey)
    ensures Contributes(Split(tag + " " + field, '\n')[0], key)
  {
    var first := Split(tag + " " + field, '\n')[0];
    SplitFirst(tag + " ", field, '\n');
    StartsWithLonger(first, tag, " ");
    TaggedLineKey(first);
  }

  /** Four runs of lines, each led by a line of one of the four keys in turn, yield all four keys. */
  lemma FourRunsKeys(a: seq<string>, b: seq<string>, c: seq<string>, e: seq<string>)
    requires |a| > 0 && |b| > 0 && |c| > 0 && |e| > 0
    requires Contributes(a[0], NameKey) && Contributes(b[0], PriceKey)
    requires Contributes(c[0], DescriptionKey) && Contributes(e[0], CategoriesKey)
    ensures Keys(ParseLines(a + (b + (c + e)), [])) == FieldKeys
  {
    var r1 := ParseLines(a, []);
    var r2 := ParseLines(b, r1);
    var r3 := ParseLines(c, r2);
    var r4 := ParseLines(e, r3);
    assert ParseLines(a + (b + (c + e)), []) == r4 by {
      ParseLinesConcat(a, b + (c + e), []);
      ParseLinesConcat(b, c + e, r1);
      ParseLinesConcat(c, e, r2);
    }
    FirstLineKey(a, [], NameKey);
    FirstLineKey(b, r1, PriceKey);
    FirstLineKey(c, r2, DescriptionKey);
    FirstLineKey(e, r3, CategoriesKey);
    assert Keys(r4) <= FieldKeys by {
      assert Keys([]) == {};
    }
    OnlyFieldKeys(Keys(r4));
  }

  /** A set of field keys holding each of the four is the whole set. */
  lemma OnlyFieldKeys(s: set<string>)
    requires s <= FieldKeys
    requires NameKey in s && PriceKey in s && DescriptionKey in s && CategoriesKey in s
    ensures s == FieldKeys
  {
  }

  /** Four lines joined by newlines, each leading with one key in turn, yield all four keys. */
  lemma BlockKeys(l1: string, l2: string, l3: string, l4: string)
    requires Contributes(Split(l1, '\n')[0], NameKey) && Contributes(Split(l2, '\n')[0], PriceKey)
    requires Contributes(Split(l3, '\n')[0], DescriptionKey)
    requires Contributes(Split(l4, '\n')[0], CategoriesKey)
    ensures Keys(ParseLines(Split(l1 + "\n" + l2 + "\n" + l3 + "\n" + l4, '\n'), [])) == FieldKeys
  {
    var t3 := l3 + "\n" + l4;
    var t2 := l2 + "\n" + t3;
    var a, b, c, e := Split(l1, '\n'), Split(l2, '\n'), Split(l3, '\n'), Split(l4, '\n');
    assert l1 + "\n" + l2 + "\n" + l3 + "\n" + l4 == l1 + "\n" + t2;
    SplitConcat(l1, t2, '\n');
    SplitConcat(l2, t3, '\n');
    SplitConcat(l3, l4, '\n');
    FourRunsKeys(a, b, c, e);
  }

  /**
   * Whatever the fields hold, parsing a serialised block yields all four keys:
   * missing fields were written as sentinels, and stray lines only add field keys.
   */
  lemma AllKeysPresent(p: Product)
    ensures Keys(ParseLines(Split(Serialize(p), '\n'), [])) == FieldKeys
  {
    FirstPieceTagged(ProductTag, NameKey, NameOf(p));
    FirstPieceTagged(PriceTag, PriceKey, PriceOf(p));
    FirstPieceTagged(DescriptionTag, DescriptionKey, DescriptionOf(p));
    FirstPieceTagged(CategoriesTag, CategoriesKey, CategoriesText(p));
    BlockKeys(NameLine(p), PriceLine(p), DescriptionLine(p), CategoriesLine(p));
  }
}
