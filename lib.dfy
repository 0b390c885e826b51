/**
 * lib.go: argument sanitation, the JSON-array builders over query iterators and
 * the query helpers built on them.
 */
module Lib {
  import opened Wrappers
  import opened GoText
  import opened JsonText
  import opened Ledger

  // ---------------------------------------------------------------- sanitize_arguments

  const MaxArgBytes := 2000

  /** An argument sanitize_arguments lets through: 1 to 2000 bytes. */
  predicate ValidArg(s: string) {
    0 < ByteLen(s) <= MaxArgBytes
  }

  predicate ValidArgs(strs: seq<string>) {
    forall i :: 0 <= i < |strs| ==> ValidArg(strs[i])
  }

  /** Why sanitize_arguments refused an argument, and at which index. */
  datatype ArgError = EmptyArg(index: nat) | LongArg(index: nat) {
    function Message(): string {
      match this
      case EmptyArg(i) => "Argument " + IntToString(i) + " must be a non-empty string"
      case LongArg(i) => "Argument " + IntToString(i) + " must be <= 2000 characters"
    }
  }

  /** The index of the first argument, from `from` on, that is not valid. */
  function FirstInvalidFrom(strs: seq<string>, from: nat): (k: nat)
    requires from <= |strs| && exists i :: from <= i < |strs| && !ValidArg(strs[i])
    ensures from <= k < |strs| && !ValidArg(strs[k])
    ensures forall i :: from <= i < k ==> ValidArg(strs[i])
    decreases |strs| - from
  {
    if !ValidArg(strs[from]) then from else FirstInvalidFrom(strs, from + 1)
  }

  /** The error sanitize_arguments reports for an argument list that is not valid. */
  function SanitizeError(strs: seq<string>): (e: ArgError)
    requires !ValidArgs(strs)
    ensures e.index < |strs| && !ValidArg(strs[e.index])
    ensures forall i :: 0 <= i < e.index ==> ValidArg(strs[i])
    ensures e.EmptyArg? <==> strs[e.index] == ""
  {
    var k := FirstInvalidFrom(strs, 0);
    ByteLenEmpty(strs[k]);
    if ByteLen(strs[k]) <= 0 then EmptyArg(k) else LongArg(k)
  }

  /** sanitize_arguments: the first argument that is empty or longer than 2000 bytes. */
  method SanitizeArguments(strs: seq<string>) returns (err: Option<ArgError>)
    ensures err.None? <==> ValidArgs(strs)
    ensures err.Some? ==> !ValidArgs(strs) && err.value == SanitizeError(strs)
  {
    for i := 0 to |strs|
      invariant forall j :: 0 <= j < i ==> ValidArg(strs[j])
    {
      var val := strs[i];
      if ByteLen(val) <= 0 {
        return Some(EmptyArg(i));
      }
      if ByteLen(val) > MaxArgBytes {
        return Some(LongArg(i));
      }
    }
    return None;
  }

  // ---------------------------------------------------------------- array builders

  /** `{"Key":"<key>", "Record":<value>}`: one rich-query result, value as stored. */
  function KeyRecordEntry(kv: Kv): string {
    KeyPart(kv) + RecordPart(kv)
  }

  function KeyPart(kv: Kv): string {
    "{\"Key\":" + "\"" + kv.key + "\""
  }

  function RecordPart(kv: Kv): string {
    ", \"Record\":" + kv.value + "}"
  }

  /** The writes of one Key/Record entry onto the buffer. */
  method WriteKeyRecord(buffer: string, queryResponse: Kv) returns (out: string)
    ensures out == buffer + KeyRecordEntry(queryResponse)
  {
    out := buffer + "{\"Key\":";
    out := out + "\"";
    out := out + queryResponse.key;
    out := out + "\"";
    Regroup4(buffer, "{\"Key\":", "\"", queryResponse.key, "\"");
    ghost var mark := out;
    out := out + ", \"Record\":";
    out := out + queryResponse.value;
    out := out + "}";
    Regroup3(mark, ", \"Record\":", queryResponse.value, "}");
    Regroup2(buffer, KeyPart(queryResponse), RecordPart(queryResponse));
  }

  /** The value alone, as myFunctions writes it. */
  function RawEntry(kv: Kv): string {
    kv.value
  }

  /** What a builder returns for an iterator: the rendered array, or the first error. */
  function ArrayOf<T>(steps: seq<Fetch<T>>, render: T -> string): Result<string> {
    match Drain(steps)
    case Success(items) => Success(JsonArray(Rendered(items, render)))
    case Failure(e) => Failure(e)
  }

  /** The outcome of GetQueryResult followed by a builder. */
  function QueryArray(answer: Result<seq<Fetch<Kv>>>, render: Kv -> string): Result<string> {
    match answer
    case Success(steps) => ArrayOf(steps, render)
    case Failure(e) => Failure(e)
  }

  /**
   * One round of the builders' loop over a successful step: reading it extends the
   * drained items, and the separator the flag calls for followed by the element
   * extends the array text.
   */
  lemma Advance<T>(steps: seq<Fetch<T>>, i: nat, seen: seq<T>, render: T -> string, written: bool)
    requires i < |steps| && steps[i].Next? && Drain(steps[..i]) == Success(seen)
    requires written <==> |seen| > 0
    ensures Drain(steps[..i + 1]) == Success(seen + [steps[i].item])
    ensures "[" + Joined(Rendered(seen, render)) + (if written then "," else "") + render(steps[i].item) ==
      "[" + Joined(Rendered(seen + [steps[i].item], render))
  {
    DrainStep(steps, i, seen);
    RenderedAppend(seen, steps[i].item, render);
    JoinedStep(Rendered(seen, render), render(steps[i].item), written);
  }

  lemma DrainStep<T>(steps: seq<Fetch<T>>, i: nat, seen: seq<T>)
    requires i < |steps| && steps[i].Next? && Drain(steps[..i]) == Success(seen)
    ensures Drain(steps[..i + 1]) == Success(seen + [steps[i].item])
  {
    assert steps[..i + 1][..i] == steps[..i];
  }

  /** The separator the flag calls for, then the element, extends the joined text by one element. */
  lemma JoinedStep(elems: seq<string>, e: string, written: bool)
    requires written <==> |elems| > 0
    ensures "[" + Joined(elems) + (if written then "," else "") + e == "[" + Joined(elems + [e])
  {
    var all := elems + [e];
    if written {
      assert all[..|all| - 1] == elems && all[|all| - 1] == e;
      assert Joined(all) == Joined(elems) + "," + e;
      Regroup3("[", Joined(elems), ",", e);
    } else {
      assert all == [e];
      assert "[" + Joined(elems) + "" + e == "[" + e;
    }
  }

  /** A failing step ends the builders' loop with that step's error. */
  lemma Halt<T>(steps: seq<Fetch<T>>, i: nat, seen: seq<T>)
    requires i < |steps| && steps[i].Broken? && Drain(steps[..i]) == Success(seen)
    ensures Drain(steps) == Failure(steps[i].message)
  {
    assert steps[..i + 1][..i] == steps[..i];
    DrainFailureSticks(steps, i + 1);
  }

  /** constructQueryResponseFromIterator: the Key/Record array of every result, in order. */
  method ConstructQueryResponseFromIterator(steps: seq<Fetch<Kv>>) returns (r: Result<string>)
    ensures r == ArrayOf(steps, KeyRecordEntry)
  {
    var buffer := "[";
    var written := false;
    ghost var seen: seq<Kv> := [];
    var i := 0;
    while i < |steps|
      invariant 0 <= i <= |steps|
      invariant Drain(steps[..i]) == Success(seen)
      invariant written <==> |seen| > 0
      invariant buffer == "[" + Joined(Rendered(seen, KeyRecordEntry))
    {
      match steps[i]
      case Broken(e) =>
        Halt(steps, i, seen);
        return Failure(e);
      case Next(queryResponse) =>
        Advance(steps, i, seen, KeyRecordEntry, written);
        if written {
          buffer := buffer + ",";
        }
        buffer := WriteKeyRecord(buffer, queryResponse);
        written := true;
        seen := seen + [queryResponse];
      i := i + 1;
    }
    buffer := buffer + "]";
    assert steps[..i] == steps;
    return Success(buffer);
  }

  /** myFunctions: the same array shape, each element the stored value with no key. */
  method MyFunctions(steps: seq<Fetch<Kv>>) returns (r: Result<string>)
    ensures r == ArrayOf(steps, RawEntry)
  {
    var buffer := "[";
    var written := false;
    ghost var seen: seq<Kv> := [];
    var i := 0;
    while i < |steps|
      invariant 0 <= i <= |steps|
      invariant Drain(steps[..i]) == Success(seen)
      invariant written <==> |seen| > 0
      invariant buffer == "[" + Joined(Rendered(seen, RawEntry))
    {
      match steps[i]
      case Broken(e) =>
        Halt(steps, i, seen);
        return Failure(e);
      case Next(queryResponse) =>
        Advance(steps, i, seen, RawEntry, written);
        if written {
          buffer := buffer + ",";
        }
        buffer := buffer + queryResponse.value;
        written := true;
        seen := seen + [queryResponse];
      i := i + 1;
    }
    buffer := buffer + "]";
    assert steps[..i] == steps;
    return Success(buffer);
  }

  // ---------------------------------------------------------------- query helpers

  /**
   * getQueryResultForQueryString: runs the query and builds the Key/Record array
   * with its own copy of the loop.
   */
  method GetQueryResultForQueryString(stub: Stub, queryString: string) returns (r: Result<string>)
    ensures r == QueryArray(stub.queryResults(queryString), KeyRecordEntry)
  {
    var answer := stub.queryResults(queryString);
    if answer.Failure? {
      return Failure(answer.error);
    }
    var steps := answer.value;
    var buffer := "[";
    var written := false;
    ghost var seen: seq<Kv> := [];
    var i := 0;
    while i < |steps|
      invariant 0 <= i <= |steps|
      invariant Drain(steps[..i]) == Success(seen)
      invariant written <==> |seen| > 0
      invariant buffer == "[" + Joined(Rendered(seen, KeyRecordEntry))
    {
      match steps[i]
      case Broken(e) =>
        Halt(steps, i, seen);
        return Failure(e);
      case Next(queryResponse) =>
        Advance(steps, i, seen, KeyRecordEntry, written);
        if written {
          buffer := buffer + ",";
        }
        buffer := WriteKeyRecord(buffer, queryResponse);
        written := true;
        seen := seen + [queryResponse];
      i := i + 1;
    }
    buffer := buffer + "]";
    assert steps[..i] == steps;
    return Success(buffer);
  }

  /** getQueryResultForQueryStringCouch: the query run through constructQueryResponseFromIterator. */
  method GetQueryResultForQueryStringCouch(stub: Stub, queryString: string) returns (r: Result<string>)
    ensures r == QueryArray(stub.queryResults(queryString), KeyRecordEntry)
  {
    var answer := stub.queryResults(queryString);
    if answer.Failure? {
      return Failure(answer.error);
    }
    r := ConstructQueryResponseFromIterator(answer.value);
  }

  /** getQueryResultInBytesForQueryStringCouch: the same as the Couch variant above. */
  method GetQueryResultInBytesForQueryStringCouch(stub: Stub, queryString: string) returns (r: Result<string>)
    ensures r == QueryArray(stub.queryResults(queryString), KeyRecordEntry)
  {
    var answer := stub.queryResults(queryString);
    if answer.Failure? {
      return Failure(answer.error);
    }
    var buffer := ConstructQueryResponseFromIterator(answer.value);
    if buffer.Failure? {
      return Failure(buffer.error);
    }
    return Success(buffer.value);
  }

  /**
   * getQueryResultInStringForQueryStringCouch: like the bytes variant, but on an
   * error it returns the text "nil" beside the error.
   */
  method GetQueryResultInStringForQueryStringCouch(stub: Stub, queryString: string)
    returns (text: string, err: Option<string>)
    ensures var q := QueryArray(stub.queryResults(queryString), KeyRecordEntry);
      (q.Success? ==> text == q.value && err == None) &&
      (q.Failure? ==> text == "nil" && err == Some(q.error))
  {
    var answer := stub.queryResults(queryString);
    if answer.Failure? {
      return "nil", Some(answer.error);
    }
    var buffer := ConstructQueryResponseFromIterator(answer.value);
    if buffer.Failure? {
      return "nil", Some(buffer.error);
    }
    return buffer.value, None;
  }

  /** myfunction: the query run through myFunctions. */
  method Myfunction(stub: Stub, queryString: string) returns (r: Result<string>)
    ensures r == QueryArray(stub.queryResults(queryString), RawEntry)
  {
    var answer := stub.queryResults(queryString);
    if answer.Failure? {
      return Failure(answer.error);
    }
    r := MyFunctions(answer.value);
  }

  /** The selector query_all formats around its document type. */
  function DocTypeSelector(docType: string): string {
    "{\"selector\":{\"docType\":\"" + docType + "\"}}"
  }

  /**
   * query_all: selects by the document type in args[1] (args[0] is ignored) and
   * answers with the Key/Record array; fewer than two arguments is an index panic.
   */
  method QueryAll(stub: Stub, args: seq<string>) returns (resp: Response)
    ensures |args| < 2 ==> resp == Panic
    ensures |args| >= 2 ==>
      var q := QueryArray(stub.queryResults(DocTypeSelector(args[1])), KeyRecordEntry);
      resp == (if q.Success? then Ok(q.value) else Error(q.error))
  {
    if |args| < 2 {
      return Panic;
    }
    var docType := args[1];
    var queryString := "{\"selector\":{\"docType\":\"" + docType + "\"}}";
    var queryResults := GetQueryResultInBytesForQueryStringCouch(stub, queryString);
    if queryResults.Failure? {
      return Error(queryResults.error);
    }
    return Ok(queryResults.value);
  }

  // ---------------------------------------------------------------- properties of the builders

  /** An empty result set gives "[]" from every builder. */
  lemma EmptyResultsGiveEmptyArray(render: Kv -> string)
    ensures ArrayOf([], render) == Success("[]")
  {
    assert Rendered([], render) == [];
    assert JsonArray([]) == "[]";
  }

  /** A failing step anywhere means no output at all, only that step's error. */
  lemma {:induction false} BrokenStepMeansNoOutput<T>(steps: seq<Fetch<T>>, k: nat, render: T -> string)
    requires k < |steps| && steps[k].Broken? && forall i :: 0 <= i < k ==> steps[i].Next?
    ensures ArrayOf(steps, render) == Failure(steps[k].message)
  {
    DrainMeaning(steps[..k]);
    assert steps[..k + 1][..k] == steps[..k];
    DrainFailureSticks(steps, k + 1);
  }

  /**
   * With no failing step, a builder's array is the bracketed, comma-separated
   * entries of every result in iterator order.
   */
  lemma AllStepsGiveEveryEntry<T>(steps: seq<Fetch<T>>, render: T -> string)
    requires forall i :: 0 <= i < |steps| ==> steps[i].Next?
    ensures ArrayOf(steps, render).Success?
    ensures var items := Drain(steps).value;
      |items| == |steps| && (forall i :: 0 <= i < |steps| ==> items[i] == steps[i].item) &&
      ArrayOf(steps, render).value == JsonArray(Rendered(items, render))
  {
    DrainMeaning(steps);
  }
}
