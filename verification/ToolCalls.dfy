/** One batch of tool calls from a model reply: ids are filled in and repeated ids dropped. */
module ToolCalls {
  import opened Messages

  /** A call as the model sent it; an empty id means none was given. Arguments are in their
      canonical rendering, empty when there are none. */
  datatype RawCall = RawCall(id: string, name: string, input: string)

  datatype Call = Call(id: string, name: string, input: string)

  /** Two calls are identical when name and arguments agree. */
  type Signature = (string, string)

  function SignatureOf(c: Call): Signature {
    (c.name, c.input)
  }

  function Decimal(n: nat): (s: string)
    ensures s != ""
  {
    var digit := ["0123456789"[n % 10]];
    if n < 10 then digit else Decimal(n / 10) + digit
  }

  function Normalize(raw: RawCall, index: nat): Call {
    var id := Strip(raw.id);
    Call(if id != "" then id else "tool-" + Decimal(index + 1), raw.name, raw.input)
  }

  function CallIds(calls: seq<Call>): (ids: seq<string>)
    ensures |ids| == |calls|
    ensures forall i :: 0 <= i < |calls| ==> ids[i] == calls[i].id
  {
    seq(|calls|, i requires 0 <= i < |calls| => calls[i].id)
  }

  function NormalizeAll(raw: seq<RawCall>): (calls: seq<Call>)
    ensures |calls| == |raw|
    ensures forall i :: 0 <= i < |raw| ==> calls[i] == Normalize(raw[i], i)
  {
    seq(|raw|, i requires 0 <= i < |raw| => Normalize(raw[i], i))
  }

  /** The first call of each id among calls[..n]. */
  function FirstOfEachId(calls: seq<Call>, n: nat): seq<Call>
    requires n <= |calls|
  {
    if n == 0 then []
    else
      var before, c := FirstOfEachId(calls, n - 1), calls[n - 1];
      if c.id in CallIds(before) then before else before + [c]
  }

  function Deduplicate(raw: seq<RawCall>): seq<Call> {
    FirstOfEachId(NormalizeAll(raw), |raw|)
  }

  function Value(digits: string): int {
    if digits == "" then 0 else 10 * Value(digits[..|digits| - 1]) + (digits[|digits| - 1] as int - '0' as int)
  }

  lemma {:induction false} DecimalIsExact(n: nat)
    ensures Value(Decimal(n)) == n
  {
    var d := n % 10;
    var digit := "0123456789"[d];
    assert digit as int - '0' as int == d by {
      assert d == 0 || d == 1 || d == 2 || d == 3 || d == 4 || d == 5 || d == 6 || d == 7 || d == 8 || d == 9;
    }
    if n < 10 {
      assert [digit][..0] == "";
    } else {
      DecimalIsExact(n / 10);
      assert Decimal(n)[..|Decimal(n)| - 1] == Decimal(n / 10);
    }
  }

  /** Calls that come without an id are told apart by their place. */
  lemma {:induction false} FallbackIdsDiffer(raw: seq<RawCall>, i: nat, j: nat)
    requires i < |raw| && j < |raw| && Strip(raw[i].id) == "" && Strip(raw[j].id) == ""
    ensures Normalize(raw[i], i).id == Normalize(raw[j], j).id <==> i == j
  {
    DecimalIsExact(i + 1);
    DecimalIsExact(j + 1);
    var a, b := Decimal(i + 1), Decimal(j + 1);
    assert ("tool-" + a)[5..] == a && ("tool-" + b)[5..] == b;
  }

  /** An earlier call has the id of this one. */
  predicate RepeatsId(calls: seq<Call>, k: nat)
    requires k < |calls|
  {
    exists j :: 0 <= j < k && calls[j].id == calls[k].id
  }

  lemma {:induction false} RepeatsIff(calls: seq<Call>, k: nat)
    requires k < |calls|
    ensures calls[k].id in CallIds(FirstOfEachId(calls, k)) <==> RepeatsId(calls, k)
  {
    FirstOfEachIdIsExact(calls, k);
    if calls[k].id in CallIds(FirstOfEachId(calls, k)) {
      var i :| 0 <= i < |FirstOfEachId(calls, k)| && FirstOfEachId(calls, k)[i].id == calls[k].id;
      assert FirstOfEachId(calls, k)[i] in FirstOfEachId(calls, k);
    }
  }

  /** The places of the calls among the first n that repeat an id. */
  function Repeats(calls: seq<Call>, n: nat): seq<nat>
    requires n <= |calls|
  {
    if n == 0 then []
    else Repeats(calls, n - 1) + if calls[n - 1].id in CallIds(FirstOfEachId(calls, n - 1)) then [n - 1] else []
  }

  /** Exactly the calls that repeat the id of an earlier one are suppressed, each once. */
  lemma {:induction false} RepeatsAreExact(calls: seq<Call>, n: nat)
    requires n <= |calls|
    ensures forall k: nat :: k in Repeats(calls, n) <==> k < n && RepeatsId(calls, k)
    ensures forall i, j :: 0 <= i < j < |Repeats(calls, n)| ==> Repeats(calls, n)[i] < Repeats(calls, n)[j]
  {
    if n > 0 {
      RepeatsAreExact(calls, n - 1);
      RepeatsIff(calls, n - 1);
      var before := Repeats(calls, n - 1);
      assert forall i | 0 <= i < |before| :: before[i] in before;
    }
  }

  lemma {:induction false} OneMoreCall(calls: seq<Call>, n: nat)
    requires n < |calls|
    ensures var repeats, kept := calls[n].id in CallIds(FirstOfEachId(calls, n)), FirstOfEachId(calls, n);
      && FirstOfEachId(calls, n + 1) == (if repeats then kept else kept + [calls[n]])
      && Repeats(calls, n + 1) == (if repeats then Repeats(calls, n) + [n] else Repeats(calls, n))
  {
  }

  /** One pass over the calls: the first of each id, and the places of the rest. */
  method KeepFirstOfEachId(calls: seq<Call>) returns (unique: seq<Call>, suppressed: seq<nat>)
    ensures |unique| + |suppressed| == |calls|
    ensures unique == FirstOfEachId(calls, |calls|)
    ensures suppressed == Repeats(calls, |calls|)
  {
    unique, suppressed := [], [];
    for index := 0 to |calls|
      invariant unique == FirstOfEachId(calls, index) && suppressed == Repeats(calls, index)
      invariant |unique| + |suppressed| == index
    {
      OneMoreCall(calls, index);
      var call := calls[index];
      if call.id in CallIds(unique) {
        suppressed := suppressed + [index];
      } else {
        unique := unique + [call];
      }
    }
  }

  method DeduplicateToolCalls(raw: seq<RawCall>) returns (unique: seq<Call>, suppressed: seq<nat>)
    ensures |unique| + |suppressed| == |raw|
    ensures unique == Deduplicate(raw)
    ensures suppressed == Repeats(NormalizeAll(raw), |raw|)
  {
    unique, suppressed := KeepFirstOfEachId(NormalizeAll(raw));
  }

  lemma {:induction false} StripLetter(c: char)
    requires !IsSpace(c)
    ensures Strip([c]) == [c]
  {
  }

  lemma {:induction false} OneIsKept(c: char, name: string, input: string)
    requires !IsSpace(c)
    ensures Deduplicate([RawCall([c], name, input)]) == [Call([c], name, input)]
  {
    StripLetter(c);
    var calls := [Call([c], name, input)];
    assert NormalizeAll([RawCall([c], name, input)]) == calls;
    assert FirstOfEachId(calls, 0) == [];
    assert FirstOfEachId(calls, 1) == [] + [calls[0]];
  }

  ghost predicate DistinctIds(calls: seq<Call>) {
    forall i, j :: 0 <= i < j < |calls| ==> calls[i].id != calls[j].id
  }

  /** No call before position i carries this id. */
  ghost predicate FirstAt(calls: seq<Call>, i: nat, id: string)
    requires i <= |calls|
  {
    forall j: nat :: j < i ==> calls[j].id != id
  }

  /** Ids come out pairwise distinct, each call kept is the first of its id, and no id is
      lost. */
  lemma {:induction false} FirstOfEachIdIsExact(calls: seq<Call>, n: nat)
    requires n <= |calls|
    ensures DistinctIds(FirstOfEachId(calls, n))
    ensures forall c | c in FirstOfEachId(calls, n) :: exists i: nat ::
        i < n && c == calls[i] && FirstAt(calls, i, c.id)
    ensures forall i: nat :: i < n ==> calls[i].id in CallIds(FirstOfEachId(calls, n))
  {
    if n > 0 {
      FirstOfEachIdIsExact(calls, n - 1);
      var before, after, c := FirstOfEachId(calls, n - 1), FirstOfEachId(calls, n), calls[n - 1];
      if c.id !in CallIds(before) {
        assert forall i :: 0 <= i < |before| ==> CallIds(after)[i] == CallIds(before)[i];
        assert CallIds(after)[|before|] == c.id;
        assert FirstAt(calls, n - 1, c.id);
      }
    }
  }

  /** A call without an id is executed, with its name and input, unless an earlier one was given the
      very id it gets. */
  lemma {:induction false} NamelessCallIsKept(raw: seq<RawCall>, i: nat)
    requires i < |raw| && Strip(raw[i].id) == ""
    requires forall j: nat | j < i :: Strip(raw[j].id) != "tool-" + Decimal(i + 1)
    ensures Call("tool-" + Decimal(i + 1), raw[i].name, raw[i].input) in Deduplicate(raw)
  {
    var calls := NormalizeAll(raw);
    FirstOfEachIdIsExact(calls, |raw|);
    assert calls[i].id in CallIds(Deduplicate(raw));
    var k :| 0 <= k < |Deduplicate(raw)| && Deduplicate(raw)[k].id == calls[i].id;
    assert Deduplicate(raw)[k] in Deduplicate(raw);
    var first: nat :| first < |raw| && Deduplicate(raw)[k] == calls[first] && FirstAt(calls, first, calls[i].id);
    if first < i {
      if Strip(raw[first].id) == "" {
        FallbackIdsDiffer(raw, first, i);
      }
      assert false;
    }
  }

  /** A call with an id of its own keeps it, stripped; the first call of an id is the one that is
      executed. */
  lemma {:induction false} FirstNamedCallIsKept(raw: seq<RawCall>, i: nat)
    requires i < |raw| && Strip(raw[i].id) != ""
    requires forall j: nat | j < i :: Normalize(raw[j], j).id != Strip(raw[i].id)
    ensures Call(Strip(raw[i].id), raw[i].name, raw[i].input) in Deduplicate(raw)
  {
    var calls := NormalizeAll(raw);
    FirstOfEachIdIsExact(calls, |raw|);
    assert calls[i].id in CallIds(Deduplicate(raw));
    var k :| 0 <= k < |Deduplicate(raw)| && Deduplicate(raw)[k].id == calls[i].id;
    assert Deduplicate(raw)[k] in Deduplicate(raw);
  }

  /** What the loop executes: every id is present and none occurs twice. */
  lemma {:induction false} DeduplicatedIds(raw: seq<RawCall>)
    ensures DistinctIds(Deduplicate(raw))
    ensures "" !in CallIds(Deduplicate(raw))
  {
    FirstOfEachIdIsExact(NormalizeAll(raw), |raw|);
    forall i | 0 <= i < |Deduplicate(raw)|
      ensures Deduplicate(raw)[i].id != ""
    {
      assert Deduplicate(raw)[i] in Deduplicate(raw);
    }
  }

  /** The executor runs its input through the same filter; on an already filtered batch the
      second time changes nothing. */
  lemma {:induction false} DistinctUnchanged(calls: seq<Call>, n: nat)
    requires n <= |calls| && DistinctIds(calls)
    ensures FirstOfEachId(calls, n) == calls[..n]
  {
    if n > 0 {
      DistinctUnchanged(calls, n - 1);
      assert calls[..n] == calls[..n - 1] + [calls[n - 1]];
    }
  }
}
