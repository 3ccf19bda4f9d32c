/**
 * src/pages/ViewRecords.tsx: the documents list bucketed by case-insensitive
 * filename substrings into prescriptions, X-rays and imaging (which may
 * overlap) and "other" (everything in none of them), and the count caption.
 */
module ViewRecords {
  import opened Wrappers
  import opened Text
  import opened Seqs

  /** A document list item: `{_id, filename, uploadedAt}`. */
  datatype Document = Document(id: string, filename: string, uploadedAt: string)

  datatype Categories = Categories(
    all: seq<Document>,
    prescriptions: seq<Document>,
    xray: seq<Document>,
    imaging: seq<Document>,
    other: seq<Document>)

  /** `d.filename.toLowerCase().includes(word)`. */
  predicate NameHas(d: Document, word: string) {
    Includes(ToLower(d.filename), word)
  }

  predicate IsPrescription(d: Document) {
    NameHas(d, "prescription") || NameHas(d, "rx")
  }

  predicate IsXray(d: Document) {
    NameHas(d, "xray") || NameHas(d, "x-ray")
  }

  predicate IsImaging(d: Document) {
    NameHas(d, "mri") || NameHas(d, "ct") || NameHas(d, "scan") || NameHas(d, "imaging")
  }

  /** The "other" test, written as the page writes it: none of the eight words occurs. */
  predicate IsOther(d: Document) {
    var name := ToLower(d.filename);
    !Includes(name, "prescription") && !Includes(name, "rx") &&
    !Includes(name, "xray") && !Includes(name, "x-ray") &&
    !Includes(name, "mri") && !Includes(name, "ct") &&
    !Includes(name, "scan") && !Includes(name, "imaging")
  }

  /** The "other" test is exactly the complement of the three named categories. */
  lemma OtherIsComplement(d: Document)
    ensures IsOther(d) <==> !(IsPrescription(d) || IsXray(d) || IsImaging(d))
  {
  }

  /**
   * `categorizeDocuments(docs)`: no list gives five empty buckets; otherwise
   * `all` is the list itself and every bucket keeps, in order, exactly the
   * documents that pass its test, each as often as it occurs in the list.
   */
  function Categorize(docs: Option<seq<Document>>): (c: Categories)
    ensures docs.None? ==> c == Categories([], [], [], [], [])
    ensures docs.Some? ==> c.all == docs.value
    ensures docs.Some? ==>
      && IsSubsequence(c.prescriptions, docs.value)
      && IsSubsequence(c.xray, docs.value)
      && IsSubsequence(c.imaging, docs.value)
      && IsSubsequence(c.other, docs.value)
    ensures docs.Some? ==> forall d :: d in c.prescriptions <==> d in docs.value && IsPrescription(d)
    ensures docs.Some? ==> forall d :: d in c.xray <==> d in docs.value && IsXray(d)
    ensures docs.Some? ==> forall d :: d in c.imaging <==> d in docs.value && IsImaging(d)
    ensures docs.Some? ==> forall d :: d in c.other <==>
      d in docs.value && !(IsPrescription(d) || IsXray(d) || IsImaging(d))
    ensures docs.Some? ==> forall d ::
      multiset(c.prescriptions)[d] == if IsPrescription(d) then multiset(docs.value)[d] else 0
    ensures docs.Some? ==> forall d ::
      multiset(c.xray)[d] == if IsXray(d) then multiset(docs.value)[d] else 0
    ensures docs.Some? ==> forall d ::
      multiset(c.imaging)[d] == if IsImaging(d) then multiset(docs.value)[d] else 0
    ensures docs.Some? ==> forall d ::
      multiset(c.other)[d] == if IsOther(d) then multiset(docs.value)[d] else 0
  {
    match docs
    case None => Categories([], [], [], [], [])
    case Some(ds) =>
      Categories(
        ds,
        Filter(ds, d => IsPrescription(d)),
        Filter(ds, d => IsXray(d)),
        Filter(ds, d => IsImaging(d)),
        Filter(ds, d => IsOther(d)))
  }

  /** A document in a named category. */
  predicate InNamedCategory(d: Document) {
    IsPrescription(d) || IsXray(d) || IsImaging(d)
  }

  /**
   * "Other" never overlaps a named bucket, and together with the documents
   * in some named bucket it accounts for every document exactly once.
   */
  lemma OtherPartitions(ds: seq<Document>)
    ensures var c := Categorize(Some(ds));
      forall d :: d in c.other ==> d !in c.prescriptions && d !in c.xray && d !in c.imaging
    ensures |Categorize(Some(ds)).other| + |Filter(ds, d => InNamedCategory(d))| == |ds|
  {
    FilterComplement(ds, d => InNamedCategory(d), d => IsOther(d));
  }

  /** The buckets overlap: `rx_scan.pdf` is both a prescription and an imaging document. */
  lemma NamedBucketsOverlap()
    ensures var d := Document("1", "RX_Scan.pdf", "");
      var c := Categorize(Some([d]));
      d in c.prescriptions && d in c.imaging && d !in c.other
  {
    var d := Document("1", "RX_Scan.pdf", "");
    assert ToLower(d.filename) == "rx_scan.pdf";
    assert OccursAt("rx_scan.pdf", "rx", 0);
    assert OccursAt("rx_scan.pdf", "scan", 3);
  }

  /** The substring `ct` files any name containing it under imaging, `doctor_note.pdf` included. */
  lemma CtMatchesInsideWords()
    ensures IsImaging(Document("2", "Doctor_Note.pdf", ""))
  {
    assert ToLower("Doctor_Note.pdf") == "doctor_note.pdf";
    assert OccursAt("doctor_note.pdf", "ct", 2);
  }

  /** The caption under the title: `<n> document` with an `s` unless n is 1, then `uploaded`. */
  function CountCaption(n: nat): (r: string)
    ensures r == DecimalString(n) + (if n == 1 then " document uploaded" else " documents uploaded")
  {
    DecimalString(n) + " document" + (if n != 1 then "s" else "") + " uploaded"
  }

  /** One document reads in the singular; two and twelve in the plural. */
  lemma CaptionExamples()
    ensures CountCaption(1) == "1 document uploaded"
    ensures CountCaption(2) == "2 documents uploaded"
    ensures CountCaption(12) == "12 documents uploaded"
  {
    SingleDigitCaptions();
    TwoDigitCaption();
  }

  lemma SingleDigitCaptions()
    ensures CountCaption(1) == "1 document uploaded"
    ensures CountCaption(2) == "2 documents uploaded"
  {
    assert CountCaption(1) == "1 document uploaded" by {
      assert DecimalString(1) == "1" by { assert DigitChar(1) == '1'; }
      assert CountCaption(1) == DecimalString(1) + " document uploaded";
    }
    assert CountCaption(2) == "2 documents uploaded" by {
      assert DecimalString(2) == "2" by { assert DigitChar(2) == '2'; }
      assert CountCaption(2) == DecimalString(2) + " documents uploaded";
    }
  }

  lemma TwoDigitCaption()
    ensures CountCaption(12) == "12 documents uploaded"
  {
    assert CountCaption(12) == "12 documents uploaded" by {
      assert DecimalString(12) == "12" by {
        assert DecimalString(1) == "1" by { assert DigitChar(1) == '1'; }
        assert DecimalString(12) == DecimalString(1) + [DigitChar(2)];
        assert DigitChar(2) == '2';
      }
      assert CountCaption(12) == DecimalString(12) + " documents uploaded";
    }
  }
}
