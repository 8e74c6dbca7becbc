/** Shared vocabulary: options, results, JSON payload fields and SQLite row ids. */
module Base {
  datatype Option<+T> = None | Some(value: T)

  /** Why a handler refuses a request. Invalid carries the error code the service reports. */
  datatype Failure = NotFound | Duplicate | Invalid(reason: string)

  datatype Result<+T> = Ok(value: T) | Err(error: Failure) {
    predicate IsFailure() {
      Err?
    }

    function PropagateFailure<U>(): Result<U>
      requires Err?
    {
      Err(error)
    }

    function Extract(): T
      requires Ok?
    {
      value
    }

    function Verdict(): Option<Failure> {
      if Ok? then None else Some(error)
    }
  }

  /** One key of a decoded JSON object: absent, explicitly null, or a value.
      The difference between the first two matters wherever two objects are merged. */
  datatype Field<+T> = Absent | Null | Val(value: T)

  /** Absent and null both mean the fallback. */
  function OrElse<T>(field: Field<T>, fallback: T): T {
    if field.Val? then field.value else fallback
  }

  /** The value a nullable column receives. */
  function Column<T>(field: Field<T>): Option<T> {
    if field.Val? then Some(field.value) else None
  }

  /** The value a nullable column keeps unless the payload holds a non-null value. */
  function ColumnOr<T>(field: Field<T>, current: Option<T>): Option<T> {
    if field.Val? then Some(field.value) else current
  }

  /** Key-by-key merge of two objects: a key present in the second one wins, null included. */
  function Overlay<T>(base: Field<T>, over: Field<T>): Field<T> {
    if over.Absent? then base else over
  }

  /** The merge of a stored column with a payload key. */
  function OverlayColumn<T>(current: Option<T>, over: Field<T>): Option<T> {
    if over.Absent? then current else Column(over)
  }

  /** A stored text column overlaid by a payload key, with the default that null falls back to. */
  function OverlayText<T>(current: T, over: Field<T>, fallback: T): T {
    if over.Absent? then current else OrElse(over, fallback)
  }

  function FromColumn<T>(column: Option<T>): Field<T> {
    if column.Some? then Val(column.value) else Null
  }

  lemma HasMember(ids: set<int>)
    ensures ids == {} || exists k :: k in ids
  {
    if forall k :: k !in ids {
      assert ids == {};
    }
  }

  /** The same for texts: the verifier wants the witness at the element type. */
  lemma HasText(texts: set<string>)
    ensures texts == {} || exists k :: k in texts
  {
    if forall k :: k !in texts {
      assert texts == {};
    }
  }

  lemma {:induction false} HasLargest(ids: set<int>)
    requires ids != {}
    ensures exists k :: k in ids && forall j :: j in ids ==> j <= k
    decreases |ids|
  {
    HasMember(ids);
    var x :| x in ids;
    var rest := ids - {x};
    if rest == {} {
      assert ids == {x};
    } else {
      HasLargest(rest);
      var k :| k in rest && forall j :: j in rest ==> j <= k;
      assert forall j :: j in ids ==> j == x || j in rest;
      assert (if x <= k then k else x) in ids;
    }
  }

  /** The row id SQLite gives the next row of a table whose ids are `ids`: one more than the largest. */
  ghost function NextId(ids: set<int>): (id: int)
    ensures forall k :: k in ids ==> k < id
    ensures if ids == {} then id == 1 else id - 1 in ids
  {
    if ids == {} then 1 else
    HasLargest(ids);
    var k :| k in ids && forall j :: j in ids ==> j <= k;
    k + 1
  }

  /** An id above every other one, with its predecessor in use, is the next id. */
  lemma NextIdIs(ids: set<int>, id: int)
    requires forall k :: k in ids ==> k < id
    requires if ids == {} then id == 1 else id - 1 in ids
    ensures NextId(ids) == id
  {
    var next := NextId(ids);
    if ids != {} {
      assert next - 1 in ids && id - 1 in ids;
    }
  }

  function Digit(n: int): char
    requires 0 <= n < 10
  {
    "0123456789"[n]
  }

  /** Decimal text of an integer, as Go's fmt prints it. */
  function Decimal(n: int): (text: string)
    decreases if n < 0 then 1 - n else n
  {
    if n < 0 then "-" + Decimal(-n)
    else if n < 10 then [Digit(n)]
    else Decimal(n / 10) + [Digit(n % 10)]
  }

  /** The number a text of digits stands for. */
  function Numeral(text: string): int {
    if text == "" then 0
    else 10 * Numeral(text[..|text| - 1]) + (text[|text| - 1] as int - '0' as int)
  }

  /** The text of a number reads back as the number. */
  lemma {:induction false} DecimalReadsBack(n: nat)
    ensures Decimal(n) != "" && Numeral(Decimal(n)) == n
    ensures forall i :: 0 <= i < |Decimal(n)| ==> '0' <= Decimal(n)[i] <= '9'
  {
    if n >= 10 {
      DecimalReadsBack(n / 10);
      assert Decimal(n)[..|Decimal(n)| - 1] == Decimal(n / 10);
    } else {
      assert Decimal(n)[..0] == "";
    }
  }

  /** The text of a list with every later duplicate dropped. */
  function Unique(ids: seq<int>): (r: seq<int>) {
    if ids == [] then []
    else
      var rest := Unique(ids[..|ids| - 1]);
      var last := ids[|ids| - 1];
      if last in rest then rest else rest + [last]
  }

  predicate Distinct<T(==)>(items: seq<T>) {
    forall i, j :: 0 <= i < j < |items| ==> items[i] != items[j]
  }

  lemma {:induction false} UniqueKeepsMembers(ids: seq<int>)
    ensures Distinct(Unique(ids))
    ensures forall k :: k in Unique(ids) <==> k in ids
  {
    if ids != [] {
      UniqueKeepsMembers(ids[..|ids| - 1]);
      assert ids == ids[..|ids| - 1] + [ids[|ids| - 1]];
    }
  }

  lemma {:induction false} UniqueOfDistinct(ids: seq<int>)
    requires Distinct(ids)
    ensures Unique(ids) == ids
  {
    if ids != [] {
      UniqueOfDistinct(ids[..|ids| - 1]);
      assert ids == ids[..|ids| - 1] + [ids[|ids| - 1]];
    }
  }
}
