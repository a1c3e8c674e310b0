/**
 * Cache keys: every question of a message written as "name class type",
 * the rows joined by ',' in question order.
 */
module CacheKey {
  import opened Strings
  import opened Messages

  /**
   * The library's `ClassToString` and `TypeToString` tables. Looking up a
   * code the table does not name yields the empty string, as indexing a Go
   * map does.
   */
  datatype Mnemonics = Mnemonics(classes: map<u16, string>, types: map<u16, string>)

  function ClassString(tables: Mnemonics, qclass: u16): string {
    if qclass in tables.classes then tables.classes[qclass] else ""
  }

  function TypeString(tables: Mnemonics, qtype: u16): string {
    if qtype in tables.types then tables.types[qtype] else ""
  }

  /** `fmt.Sprintf("%s %s %s", name, class, type)` for one question. */
  function Row(tables: Mnemonics, q: Question): string {
    q.name + " " + ClassString(tables, q.qclass) + " " + TypeString(tables, q.qtype)
  }

  function Rows(tables: Mnemonics, questions: seq<Question>): (rows: seq<string>)
    ensures |rows| == |questions|
    ensures forall i :: 0 <= i < |questions| ==> rows[i] == Row(tables, questions[i])
  {
    seq(|questions|, i requires 0 <= i < |questions| => Row(tables, questions[i]))
  }

  /** The key of a question list: its rows joined by ','. */
  function Key(tables: Mnemonics, questions: seq<Question>): string {
    Join(Rows(tables, questions), ',')
  }

  /** `messageCacheKey`: collect one row per question, then join them. */
  method MessageCacheKey(tables: Mnemonics, message: Msg) returns (key: string)
    ensures key == Key(tables, message.question)
    ensures message.question == [] ==> key == ""
    ensures |message.question| == 1 ==> key == Row(tables, message.question[0])
  {
    var questions: seq<string> := [];
    for i := 0 to |message.question|
      invariant questions == Rows(tables, message.question[..i])
    {
      var questionRow := Row(tables, message.question[i]);
      questions := questions + [questionRow];
    }
    assert message.question[..|message.question|] == message.question;
    key := Join(questions, ',');
  }

  /**
   * Reading the key back: when no row contains ',', splitting the key at ','
   * gives exactly one row per question, in question order.
   */
  lemma KeySplitsIntoRows(tables: Mnemonics, questions: seq<Question>)
    requires |questions| >= 1
    requires forall i :: 0 <= i < |questions| ==> ',' !in Row(tables, questions[i])
    ensures Split(Key(tables, questions), ',') == Rows(tables, questions)
  {
    var rows := Rows(tables, questions);
    forall p | p in rows ensures ',' !in p {
      var i :| 0 <= i < |rows| && rows[i] == p;
    }
    SplitJoin(rows, ',');
  }

  /** The text of a join of `rows` that precedes the part at index `i`. */
  function Before(rows: seq<string>, i: nat): string
    requires i < |rows|
  {
    if i == 0 then "" else Join(rows[..i], ',') + ","
  }

  /** The text of a join of `rows` that follows the part at index `i`. */
  function After(rows: seq<string>, i: nat): string
    requires i < |rows|
  {
    if i == |rows| - 1 then "" else "," + Join(rows[i + 1..], ',')
  }

  lemma {:induction false} JoinAround(rows: seq<string>, i: nat)
    requires i < |rows|
    ensures Join(rows, ',') == Before(rows, i) + rows[i] + After(rows, i)
    decreases i
  {
    if i == 0 {
      if |rows| > 1 {
        assert Join(rows, ',') == rows[0] + [','] + Join(rows[1..], ',');
      }
    } else {
      var tail := rows[1..];
      JoinAround(tail, i - 1);
      assert tail[i - 1] == rows[i];
      assert After(tail, i - 1) == After(rows, i) by {
        assert tail[i..] == rows[i + 1..];
      }
      assert Join(rows, ',') == rows[0] + [','] + Join(tail, ',');
      if i == 1 {
        assert Join(rows[..1], ',') == rows[0];
      } else {
        assert rows[..i][1..] == tail[..i - 1];
        assert Join(rows[..i], ',') == rows[0] + [','] + Join(tail[..i - 1], ',');
      }
    }
  }

  lemma CancelAround(p: string, x: string, y: string, s: string)
    requires p + x + s == p + y + s
    ensures x == y
  {
    var whole := p + x + s;
    assert |x| == |y|;
    assert x == whole[|p|..|p| + |x|];
    assert y == (p + y + s)[|p|..|p| + |y|];
  }

  /**
   * Two question lists that agree everywhere except in one question whose
   * row differs get different keys.
   */
  lemma KeyDiffersAtRow(tables: Mnemonics, qs: seq<Question>, qs': seq<Question>, i: nat)
    requires |qs| == |qs'| && i < |qs|
    requires forall j :: 0 <= j < |qs| && j != i ==> qs[j] == qs'[j]
    requires Row(tables, qs[i]) != Row(tables, qs'[i])
    ensures Key(tables, qs) != Key(tables, qs')
  {
    var rows, rows' := Rows(tables, qs), Rows(tables, qs');
    assert rows[..i] == rows'[..i];
    assert rows[i + 1..] == rows'[i + 1..];
    JoinAround(rows, i);
    JoinAround(rows', i);
    var p, s := Before(rows, i), After(rows, i);
    assert p == Before(rows', i) && s == After(rows', i);
    if Key(tables, qs) == Key(tables, qs') {
      CancelAround(p, rows[i], rows'[i], s);
    }
  }

  /**
   * Two queries that differ only in the record type of one question get
   * different keys, provided the two types have different mnemonics.
   */
  lemma KeyDistinguishesType(tables: Mnemonics, qs: seq<Question>, i: nat, qtype: u16)
    requires i < |qs|
    requires TypeString(tables, qs[i].qtype) != TypeString(tables, qtype)
    ensures Key(tables, qs) != Key(tables, qs[i := qs[i].(qtype := qtype)])
  {
    var q := qs[i];
    var p := q.name + " " + ClassString(tables, q.qclass) + " ";
    if Row(tables, q) == Row(tables, q.(qtype := qtype)) {
      CancelAround(p, TypeString(tables, q.qtype), TypeString(tables, qtype), "");
    }
    KeyDiffersAtRow(tables, qs, qs[i := q.(qtype := qtype)], i);
  }

  /**
   * Two queries that differ only in the class of one question get different
   * keys, provided the two classes have different mnemonics.
   */
  lemma KeyDistinguishesClass(tables: Mnemonics, qs: seq<Question>, i: nat, qclass: u16)
    requires i < |qs|
    requires ClassString(tables, qs[i].qclass) != ClassString(tables, qclass)
    ensures Key(tables, qs) != Key(tables, qs[i := qs[i].(qclass := qclass)])
  {
    var q := qs[i];
    var q' := q.(qclass := qclass);
    var p, s := q.name + " ", " " + TypeString(tables, q.qtype);
    assert Row(tables, q) == p + ClassString(tables, q.qclass) + s;
    assert Row(tables, q') == p + ClassString(tables, qclass) + s;
    if Row(tables, q) == Row(tables, q') {
      CancelAround(p, ClassString(tables, q.qclass), ClassString(tables, qclass), s);
    }
    KeyDiffersAtRow(tables, qs, qs[i := q'], i);
  }

  /**
   * The limit of the key: two record types that the mnemonic table does not
   * name both print as "", so their queries share one key.
   */
  lemma UnnamedTypesShareKey(tables: Mnemonics, q: Question, qtype: u16, qtype': u16)
    requires qtype !in tables.types && qtype' !in tables.types
    ensures Key(tables, [q.(qtype := qtype)]) == Key(tables, [q.(qtype := qtype')])
  {
  }
}
