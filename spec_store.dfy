/**
 * The history store: a JSON file holding the generation records, newest
 * first.  The file is a field of a `SpecFile` object; reading it is a
 * function of that field and writing it overwrites the whole sequence.
 */
module SpecStore {
  import opened Common
  import opened Tasks

  /** One saved generation.  There is no `risks` field: the handlers never store it. */
  datatype SpecRecord = SpecRecord(
    id: string,
    createdAt: string,
    goal: string,
    users: string,
    constraints: string,
    tasks: TaskSet)

  /**
   * What the history file holds: nothing yet, something that cannot be
   * read or parsed, a JSON value that is not an array, or an array of
   * records.
   */
  datatype StoredFile = Missing | Unreadable | NonArray | Records(specs: seq<SpecRecord>)

  /** The number of records the handlers keep (`specs.splice(5)`). */
  const HistoryLimit: nat := 5

  /**
   * `loadSpecs()`: a missing or unreadable file reads as the empty history;
   * a parsed value that is not an array is returned as it is, shown here as
   * `None`, and makes the caller's array operations throw.
   */
  function LoadSpecs(f: StoredFile): (r: Option<seq<SpecRecord>>)
    ensures (f.Missing? || f.Unreadable?) ==> r == Some([])
    ensures r.None? <==> f.NonArray?
    ensures f.Records? ==> r == Some(f.specs)
  {
    match f
    case Missing => Some([])
    case Unreadable => Some([])
    case NonArray => None
    case Records(s) => Some(s)
  }

  class SpecFile {
    var contents: StoredFile

    constructor (contents: StoredFile)
      ensures this.contents == contents
    {
      this.contents := contents;
    }

    /** `saveSpecs(specs)`: the file is overwritten with exactly `specs`. */
    method SaveSpecs(specs: seq<SpecRecord>)
      modifies this
      ensures contents == Records(specs)
    {
      contents := Records(specs);
    }
  }

  /**
   * The history after `unshift(rec)` and `splice(5)`: `rec` first, then
   * the newest older records, at most five in all.
   */
  function Pushed(h: seq<SpecRecord>, rec: SpecRecord): (r: seq<SpecRecord>)
    ensures |r| == Min(|h| + 1, HistoryLimit)
    ensures r[0] == rec
    ensures r[1..] == h[..|r| - 1]
  {
    Take([rec] + h, HistoryLimit)
  }

  function Reversed<T>(s: seq<T>): (r: seq<T>)
    ensures |r| == |s|
  {
    if s == [] then [] else Reversed(s[1..]) + [s[0]]
  }

  /** The history after saving `recs[0]`, then `recs[1]`, and so on. */
  function PushAll(h: seq<SpecRecord>, recs: seq<SpecRecord>): seq<SpecRecord>
    decreases |recs|
  {
    if recs == [] then h else PushAll(Pushed(h, recs[0]), recs[1..])
  }

  lemma TakeOfTake<T>(a: seq<T>, b: seq<T>, n: nat)
    ensures Take(a + Take(b, n), n) == Take(a + b, n)
  {
    var l, r := Take(a + Take(b, n), n), Take(a + b, n);
    assert |l| == |r|;
    forall k | 0 <= k < |l| ensures l[k] == r[k] {
      if k >= |a| { assert l[k] == Take(b, n)[k - |a|]; }
    }
  }

  /**
   * However many generations are saved, the history is the newest five
   * records, newest first; older ones are evicted.
   */
  lemma {:induction false} PushAllKeepsNewest(h: seq<SpecRecord>, recs: seq<SpecRecord>)
    requires |h| <= HistoryLimit || recs != []
    ensures PushAll(h, recs) == Take(Reversed(recs) + h, HistoryLimit)
    ensures |PushAll(h, recs)| <= HistoryLimit
    decreases |recs|
  {
    if recs == [] {
      assert Reversed(recs) == [];
      assert Reversed(recs) + h == h;
    } else {
      var rest := recs[1..];
      PushAllKeepsNewest(Pushed(h, recs[0]), rest);
      calc {
        PushAll(h, recs);
        PushAll(Pushed(h, recs[0]), rest);
        Take(Reversed(rest) + Take([recs[0]] + h, HistoryLimit), HistoryLimit);
        { TakeOfTake(Reversed(rest), [recs[0]] + h, HistoryLimit); }
        Take(Reversed(rest) + ([recs[0]] + h), HistoryLimit);
        { assert Reversed(rest) + ([recs[0]] + h) == (Reversed(rest) + [recs[0]]) + h; }
        Take(Reversed(recs) + h, HistoryLimit);
      }
    }
  }
}
