/**
  The SD card as the logger sees it: a set of named files, each the sequence
  of lines written to it.  Only existence, creation with a header and
  appending are modelled.
 */
module Storage {
  import opened Wrappers
  import opened Csv

  /** Each file name maps to the lines written to that file, oldest first. */
  type Card = map<string, seq<string>>

  /** The lines of a file; a missing file reads as empty. */
  function Contents(card: Card, name: string): seq<string> {
    if name in card then card[name] else []
  }

  /** Opening a file for appending and writing one line: creates the file when it is missing. */
  function Append(card: Card, name: string, line: string): (r: Card)
    ensures name in r && Contents(r, name) == Contents(card, name) + [line]
    ensures forall n :: n != name ==> (n in r <==> n in card) && Contents(r, n) == Contents(card, n)
  {
    card[name := Contents(card, name) + [line]]
  }

  /**
    Setup's log creation: a file that exists is left alone; a missing one is
    created exclusively and gets the header; a failed create is a halt (`None`).
   */
  function CreateIfMissing(card: Card, name: string, createOk: bool): (r: Option<Card>)
    ensures name in card ==> r == Some(card)
    ensures name !in card ==> (r.Some? <==> createOk)
    ensures r.Some? && name !in card ==> r.value == card[name := [Header]]
    ensures r.Some? ==> name in r.value
  {
    if name in card then Some(card)
    else if createOk then Some(card[name := [Header]])
    else None
  }

  /** The lines appended for a run of samples, in order. */
  function AppendAll(card: Card, name: string, records: seq<Record>): Card
    decreases |records|
  {
    if records == [] then card
    else Append(AppendAll(card, name, records[..|records| - 1]), name, Line(records[|records| - 1]))
  }

  /** A daily log: the header line first, then only sample lines. */
  predicate WellFormed(log: seq<string>) {
    |log| >= 1 && log[0] == Header &&
    forall i :: 1 <= i < |log| ==> ParseLine(log[i]).Some?
  }

  /** A log created by setup starts well formed. */
  lemma CreatedLogWellFormed(card: Card, name: string)
    requires name !in card
    ensures CreateIfMissing(card, name, true).Some?
    ensures WellFormed(Contents(CreateIfMissing(card, name, true).value, name))
  {
  }

  /** In a well-formed log the header appears exactly once, as the first line. */
  lemma HeaderOnce(log: seq<string>)
    requires WellFormed(log)
    ensures forall i :: 0 <= i < |log| ==> (log[i] == Header <==> i == 0)
  {
    HeaderIsNotRecord();
  }

  /** Appending one sample line keeps a log well formed and only extends it. */
  lemma AppendKeepsLog(card: Card, name: string, r: Record)
    requires WellFormed(Contents(card, name))
    ensures WellFormed(Contents(Append(card, name, Line(r)), name))
    ensures Contents(Append(card, name, Line(r)), name) == Contents(card, name) + [Line(r)]
  {
    LineRoundTrip(r);
  }

  /**
    Appending sample lines keeps a log well formed, only ever extends it, and
    leaves every other file alone.
   */
  lemma {:induction false} AppendAllKeepsLog(card: Card, name: string, records: seq<Record>)
    requires WellFormed(Contents(card, name))
    ensures WellFormed(Contents(AppendAll(card, name, records), name))
    ensures |Contents(AppendAll(card, name, records), name)| == |Contents(card, name)| + |records|
    ensures Contents(card, name) <= Contents(AppendAll(card, name, records), name)
    ensures forall n :: n != name ==> Contents(AppendAll(card, name, records), n) == Contents(card, n)
    decreases |records|
  {
    if records != [] {
      var last := records[|records| - 1];
      AppendAllKeepsLog(card, name, records[..|records| - 1]);
      LineRoundTrip(last);
    }
  }
}
