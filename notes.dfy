/**
 * A note is the tuple `(x, y, ms)` kept in `SSPMParser.Notes`. This module
 * gives the note value, the stable sort by time that the reader applies
 * (`sorted(Notes, key=lambda n: n[2])`), the running maximum of times
 * that the writer stores as `last_ms`, and the text form produced by
 * `NOTES2TEXT`.
 */
module NoteModel {
  import opened Wrappers
  import opened Bytes

  /**
   * A coordinate. `Grid(n)` is a Python int. `Free(bits, snap)` is a
   * floating-point value: `bits` is its float32 encoding and `snap` is
   * `Some(round(v))` exactly when `round(v) == round(v, 2)`.
   */
  datatype Coord = Grid(n: int) | Free(bits: F32, snap: Option<int>)

  datatype Note = Note(x: Coord, y: Coord, ms: int)

  function Last<T>(s: seq<T>): T
    requires |s| > 0
  {
    s[|s| - 1]
  }

  function Init<T>(s: seq<T>): seq<T>
    requires |s| > 0
  {
    s[..|s| - 1]
  }

  // ---------------------------------------------------------------------
  // Stable sort by time

  predicate SortedByMs(s: seq<Note>) {
    forall i, j :: 0 <= i < j < |s| ==> s[i].ms <= s[j].ms
  }

  /** The notes of s whose time is m, in the order they appear in s. */
  function WithMs(s: seq<Note>, m: int): seq<Note> {
    if s == [] then []
    else (if s[0].ms == m then [s[0]] else []) + WithMs(s[1..], m)
  }

  lemma {:induction false} WithMsAppend(a: seq<Note>, b: seq<Note>, m: int)
    ensures WithMs(a + b, m) == WithMs(a, m) + WithMs(b, m)
  {
    if a == [] {
      assert a + b == b;
    } else {
      assert (a + b)[1..] == a[1..] + b;
      WithMsAppend(a[1..], b, m);
    }
  }

  lemma {:induction false} WithMsNone(s: seq<Note>, m: int)
    requires forall i :: 0 <= i < |s| ==> s[i].ms != m
    ensures WithMs(s, m) == []
  {
    if s != [] { WithMsNone(s[1..], m); }
  }

  /** Inserts n after every note of s whose time is not later than n's. */
  function Insert(n: Note, s: seq<Note>): seq<Note> {
    if s == [] || n.ms < s[0].ms then [n] + s
    else [s[0]] + Insert(n, s[1..])
  }

  lemma {:induction false} InsertBound(n: Note, s: seq<Note>, b: int)
    requires b <= n.ms
    requires forall i :: 0 <= i < |s| ==> b <= s[i].ms
    ensures forall i :: 0 <= i < |Insert(n, s)| ==> b <= Insert(n, s)[i].ms
  {
    if s != [] && n.ms >= s[0].ms {
      InsertBound(n, s[1..], b);
    }
  }

  lemma {:induction false} InsertSorted(n: Note, s: seq<Note>)
    requires SortedByMs(s)
    ensures SortedByMs(Insert(n, s))
  {
    if s != [] && n.ms >= s[0].ms {
      InsertSorted(n, s[1..]);
      InsertBound(n, s[1..], s[0].ms);
    }
  }

  lemma {:induction false} InsertMultiset(n: Note, s: seq<Note>)
    ensures multiset(Insert(n, s)) == multiset(s) + multiset{n}
  {
    if s != [] && n.ms >= s[0].ms {
      InsertMultiset(n, s[1..]);
      assert s == [s[0]] + s[1..];
    }
  }

  lemma {:induction false} InsertWithMs(n: Note, s: seq<Note>, m: int)
    requires SortedByMs(s)
    ensures WithMs(Insert(n, s), m) == WithMs(s, m) + (if n.ms == m then [n] else [])
  {
    if s == [] || n.ms < s[0].ms {
      assert ([n] + s)[1..] == s;
      if n.ms == m { WithMsNone(s, m); }
    } else {
      InsertWithMs(n, s[1..], m);
      assert ([s[0]] + Insert(n, s[1..]))[1..] == Insert(n, s[1..]);
    }
  }

  /**
   * Python's `sorted(notes, key=lambda n: n[2])`: ordered by time, a
   * permutation of the input, and stable, i.e. the notes sharing a time keep
   * their input order.
   */
  function SortByMs(s: seq<Note>): (r: seq<Note>)
    ensures SortedByMs(r)
    ensures multiset(r) == multiset(s)
    ensures forall m :: WithMs(r, m) == WithMs(s, m)
  {
    if s == [] then []
    else
      var sorted := SortByMs(Init(s));
      InsertSorted(Last(s), sorted);
      InsertMultiset(Last(s), sorted);
      assert s == Init(s) + [Last(s)];
      SortStep(s, sorted);
      Insert(Last(s), sorted)
  }

  lemma SortStep(s: seq<Note>, sorted: seq<Note>)
    requires |s| > 0 && SortedByMs(sorted)
    requires forall m :: WithMs(sorted, m) == WithMs(Init(s), m)
    ensures forall m :: WithMs(Insert(Last(s), sorted), m) == WithMs(s, m)
  {
    forall m ensures WithMs(Insert(Last(s), sorted), m) == WithMs(s, m) {
      SortStepAt(s, sorted, m);
    }
  }

  /** Inserting the last note into the sorted rest keeps each time's notes in input order. */
  lemma SortStepAt(s: seq<Note>, sorted: seq<Note>, m: int)
    requires |s| > 0 && SortedByMs(sorted)
    requires WithMs(sorted, m) == WithMs(Init(s), m)
    ensures WithMs(Insert(Last(s), sorted), m) == WithMs(s, m)
  {
    InsertWithMs(Last(s), sorted, m);
    assert s == Init(s) + [Last(s)];
    WithMsAppend(Init(s), [Last(s)], m);
    assert [Last(s)][1..] == [];
  }

  /** A sorted permutation that keeps the order of equal times is the one `SortByMs` gives. */
  lemma {:induction false} SortedStableIsUnique(s: seq<Note>, r: seq<Note>)
    requires SortedByMs(r)
    requires forall m :: WithMs(r, m) == WithMs(s, m)
    ensures r == SortByMs(s)
  {
    var q := SortByMs(s);
    SortedSameGroupsEqual(r, q);
  }

  lemma WithMsHead(s: seq<Note>)
    requires s != []
    ensures WithMs(s, s[0].ms) != []
  {
  }

  /** Two lists with the same first note and the same groups have tails with the same groups. */
  lemma SameGroupsTail(r: seq<Note>, q: seq<Note>, m: int)
    requires r != [] && q != [] && r[0] == q[0]
    requires WithMs(r, m) == WithMs(q, m)
    ensures WithMs(r[1..], m) == WithMs(q[1..], m)
  {
    if r[0].ms == m {
      assert WithMs(r, m) == [r[0]] + WithMs(r[1..], m);
      assert WithMs(q, m) == [q[0]] + WithMs(q[1..], m);
      assert ([r[0]] + WithMs(r[1..], m))[1..] == WithMs(r[1..], m);
      assert ([q[0]] + WithMs(q[1..], m))[1..] == WithMs(q[1..], m);
    } else {
      assert WithMs(r, m) == [] + WithMs(r[1..], m) == WithMs(r[1..], m);
      assert WithMs(q, m) == [] + WithMs(q[1..], m) == WithMs(q[1..], m);
    }
  }

  lemma {:induction false} SortedSameGroupsEqual(r: seq<Note>, q: seq<Note>)
    requires SortedByMs(r) && SortedByMs(q)
    requires forall m :: WithMs(r, m) == WithMs(q, m)
    ensures r == q
    decreases |r| + |q|
  {
    if r == [] {
      if q != [] {
        WithMsHead(q);
        assert false;
      }
    } else if q == [] {
      WithMsHead(r);
      assert false;
    } else {
      var a, b := r[0].ms, q[0].ms;
      if a < b {
        WithMsNone(q, a);
        WithMsHead(r);
        assert false;
      } else if b < a {
        WithMsNone(r, b);
        WithMsHead(q);
        assert false;
      } else {
        assert WithMs(r, a) == [r[0]] + WithMs(r[1..], a);
        assert WithMs(q, a) == [q[0]] + WithMs(q[1..], a);
        assert r[0] == WithMs(r, a)[0] == WithMs(q, a)[0] == q[0];
        forall m ensures WithMs(r[1..], m) == WithMs(q[1..], m) {
          SameGroupsTail(r, q, m);
        }
        SortedSameGroupsEqual(r[1..], q[1..]);
        assert r == [r[0]] + r[1..] && q == [q[0]] + q[1..];
      }
    }
  }

  // ---------------------------------------------------------------------
  // Running maximum of times

  /** `last_ms` as the writer computes it: a running maximum that starts at 0. */
  function MaxMs(s: seq<Note>): (r: int)
    ensures r >= 0
    ensures forall i :: 0 <= i < |s| ==> s[i].ms <= r
    ensures r == 0 || exists i :: 0 <= i < |s| && s[i].ms == r
  {
    if s == [] then 0
    else
      var m := MaxMs(Init(s));
      assert forall i :: 0 <= i < |Init(s)| ==> Init(s)[i] == s[i];
      if m < Last(s).ms then Last(s).ms else m
  }

  /** The running maximum after one more note. */
  lemma MaxMsStep(ns: seq<Note>, k: nat)
    requires k < |ns|
    ensures MaxMs(ns[..k + 1]) == if MaxMs(ns[..k]) < ns[k].ms then ns[k].ms else MaxMs(ns[..k])
  {
    assert Init(ns[..k + 1]) == ns[..k] && Last(ns[..k + 1]) == ns[k];
  }

  // ---------------------------------------------------------------------
  // Text form

  function DigitChar(d: nat): (c: char)
    requires d < 10
    ensures '0' <= c <= '9' && (c as int) - ('0' as int) == d
  {
    (('0' as int) + d) as char
  }

  /** `str(n)` for n >= 0. */
  function Digits(n: nat): (r: string)
    ensures |r| >= 1
    ensures forall i :: 0 <= i < |r| ==> '0' <= r[i] <= '9'
  {
    if n < 10 then [DigitChar(n)] else Digits(n / 10) + [DigitChar(n % 10)]
  }

  /** `str(n)` for any int. */
  function Decimal(n: int): string {
    if n < 0 then "-" + Digits(-n) else Digits(n)
  }

  /** The value of a string of decimal digits. */
  function DigitsValue(s: string): nat
    requires forall i :: 0 <= i < |s| ==> '0' <= s[i] <= '9'
  {
    if s == [] then 0
    else DigitsValue(Init(s)) * 10 + ((Last(s) as int) - ('0' as int))
  }

  lemma {:induction false} DigitsRoundTrip(n: nat)
    ensures DigitsValue(Digits(n)) == n
  {
    if n >= 10 {
      DigitsRoundTrip(n / 10);
      assert Init(Digits(n)) == Digits(n / 10);
    }
  }

  predicate GridNotes(s: seq<Note>) {
    forall i :: 0 <= i < |s| ==> s[i].x.Grid? && s[i].y.Grid?
  }

  /** One note of the `NOTES2TEXT` form: `,x|y|ms`. */
  function NoteText(n: Note): string
    requires n.x.Grid? && n.y.Grid?
  {
    "," + NoteFields(n)
  }

  function NoteFields(n: Note): string
    requires n.x.Grid? && n.y.Grid?
  {
    Decimal(n.x.n) + "|" + Decimal(n.y.n) + "|" + Decimal(n.ms)
  }

  function NotesText(s: seq<Note>): string
    requires GridNotes(s)
  {
    if s == [] then "" else NotesText(Init(s)) + NoteText(Last(s))
  }

  function Count(s: string, c: char): nat {
    if s == [] then 0 else Count(Init(s), c) + (if Last(s) == c then 1 else 0)
  }

  lemma {:induction false} CountAppend(a: string, b: string, c: char)
    ensures Count(a + b, c) == Count(a, c) + Count(b, c)
    decreases |b|
  {
    if b != [] {
      assert Init(a + b) == a + Init(b);
      CountAppend(a, Init(b), c);
    } else {
      assert a + b == a;
    }
  }

  lemma {:induction false} CountNone(s: string, c: char)
    requires forall i :: 0 <= i < |s| ==> s[i] != c
    ensures Count(s, c) == 0
  {
    if s != [] { CountNone(Init(s), c); }
  }

  lemma NoteFieldsNoComma(n: Note)
    requires n.x.Grid? && n.y.Grid?
    ensures Count(NoteFields(n), ',') == 0
  {
    var f := NoteFields(n);
    assert forall i :: 0 <= i < |Decimal(n.x.n)| ==> Decimal(n.x.n)[i] != ',';
    assert forall i :: 0 <= i < |Decimal(n.y.n)| ==> Decimal(n.y.n)[i] != ',';
    assert forall i :: 0 <= i < |Decimal(n.ms)| ==> Decimal(n.ms)[i] != ',';
    assert forall i :: 0 <= i < |f| ==> f[i] != ',';
    CountNone(f, ',');
  }

  /**
   * The text has one comma per note (a decimal holds no comma), and a
   * non-empty text starts with one: the notes can be split back apart.
   */
  lemma {:induction false} NotesTextShape(s: seq<Note>)
    requires GridNotes(s)
    ensures Count(NotesText(s), ',') == |s|
    ensures (NotesText(s) == "") <==> (s == [])
    ensures s != [] ==> NotesText(s)[0] == ','
  {
    if s != [] {
      var n := Last(s);
      assert GridNotes(Init(s));
      NotesTextShape(Init(s));
      NoteFieldsNoComma(n);
      CountAppend(",", NoteFields(n), ',');
      assert Count(",", ',') == 1 by { assert Init(",") == ""; }
      CountAppend(NotesText(Init(s)), NoteText(n), ',');
    }
  }

  /** Three notes out of order come out sorted by time. */
  lemma SortExample()
    ensures SortByMs([Note(Grid(1), Grid(1), 500), Note(Grid(0), Grid(1), 250), Note(Grid(2), Grid(0), 1500)])
         == [Note(Grid(0), Grid(1), 250), Note(Grid(1), Grid(1), 500), Note(Grid(2), Grid(0), 1500)]
  {
    var a, b, c := Note(Grid(1), Grid(1), 500), Note(Grid(0), Grid(1), 250), Note(Grid(2), Grid(0), 1500);
    assert Init([a]) == [];
    assert SortByMs([a]) == [a];
    assert Init([a, b]) == [a];
    assert Insert(b, [a]) == [b, a];
    assert SortByMs([a, b]) == [b, a];
    assert Init([a, b, c]) == [a, b];
    assert Insert(c, [a]) == [a, c];
    assert Insert(c, [b, a]) == [b, a, c];
  }

  /** `str` of the example times. */
  lemma DecimalExamples()
    ensures Decimal(250) == "250" && Decimal(500) == "500" && Decimal(1500) == "1500"
  {
    assert Digits(2) == "2" && Digits(25) == "25";
    assert Digits(5) == "5" && Digits(50) == "50";
    assert Digits(1) == "1" && Digits(15) == "15" && Digits(150) == "150";
  }

  /** The sorted notes of `SortExample` in the `NOTES2TEXT` form. */
  lemma SortedText()
    ensures NotesText([Note(Grid(0), Grid(1), 250), Note(Grid(1), Grid(1), 500), Note(Grid(2), Grid(0), 1500)])
         == ",0|1|250,1|1|500,2|0|1500"
  {
    var a, b, c := Note(Grid(1), Grid(1), 500), Note(Grid(0), Grid(1), 250), Note(Grid(2), Grid(0), 1500);
    DecimalExamples();
    assert Decimal(0) == "0" && Decimal(1) == "1" && Decimal(2) == "2";
    assert NoteText(a) == ",1|1|500";
    assert NoteText(b) == ",0|1|250";
    assert NoteText(c) == ",2|0|1500";
    assert Init([b]) == [] && Last([b]) == b;
    assert NotesText([b]) == ",0|1|250";
    assert Init([b, a]) == [b] && Last([b, a]) == a;
    assert NotesText([b, a]) == ",0|1|250,1|1|500";
    assert Init([b, a, c]) == [b, a] && Last([b, a, c]) == c;
  }

  /** `NOTES2TEXT` after the sort of `SortExample`: the three notes in time order. */
  lemma TextExample(notes: seq<Note>)
    requires notes == [Note(Grid(1), Grid(1), 500), Note(Grid(0), Grid(1), 250), Note(Grid(2), Grid(0), 1500)]
    ensures SortByMs(notes) == [Note(Grid(0), Grid(1), 250), Note(Grid(1), Grid(1), 500), Note(Grid(2), Grid(0), 1500)]
    ensures NotesText(SortByMs(notes)) == ",0|1|250,1|1|500,2|0|1500"
  {
    SortExample();
    SortedText();
  }

}
