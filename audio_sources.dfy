/**
 * Choosing the audio source to loop back (src/audio.rs): `get_source_info_list`
 * collects what a filter keeps from libpulse's source-list callback, and
 * `find_and_load_module` keeps sources whose `device.form_factor` is "webcam",
 * takes the first, and loads `module-loopback` for it.
 */
module SourceSelection {
  import opened Prelude
  import opened Decimal

  /** The fields of libpulse's `SourceInfo` the selection reads; `formFactor` is the raw property value. */
  datatype SourceInfo = SourceInfo(name: Option<string>, index: uint32, formFactor: Option<seq<byte>>)

  /** What libpulse passes to a list callback, one call at a time. */
  datatype ListResult<T> = Item(item: T) | End | Error

  /** A `load_module` request: the module's name and its argument string. */
  datatype LoadRequest = LoadRequest(name: string, argument: string)

  /** The outcome of `find_and_load_module` and the load it requested, if any. */
  datatype Search = Search(outcome: Result<Option<(uint32, uint32)>, string>, request: Option<LoadRequest>)

  /** "webcam" in ASCII. */
  const WEBCAM: seq<byte> := [0x77, 0x65, 0x62, 0x63, 0x61, 0x6D]

  const LOOPBACK_MODULE: string := "module-loopback"
  const ARGUMENT_PREFIX: string := "source="
  const ARGUMENT_SUFFIX: string := " source_dont_move=true"

  /** `split_last`: drop the last byte when it is NUL; otherwise keep the value. */
  function StripTrailingNul(b: seq<byte>): seq<byte> {
    if |b| > 0 && b[|b| - 1] == 0 then b[..|b| - 1] else b
  }

  /** The filter `find_and_load_module` passes to `get_source_info_list`. */
  function WebcamSource(info: SourceInfo): Option<(Option<string>, uint32)> {
    var formFactor := if info.formFactor.Some? then Some(StripTrailingNul(info.formFactor.value)) else None;
    if formFactor == Some(WEBCAM) then Some((info.name, info.index)) else None
  }

  /** A source qualifies exactly when its form factor is "webcam", with or without one trailing NUL. */
  lemma WebcamSourceIff(info: SourceInfo)
    ensures WebcamSource(info).Some? <==>
      info.formFactor == Some(WEBCAM) || info.formFactor == Some(WEBCAM + [0])
    ensures WebcamSource(info).Some? ==> WebcamSource(info).value == (info.name, info.index)
  {
    if info.formFactor.Some? {
      var b := info.formFactor.value;
      if |b| > 0 && b[|b| - 1] == 0 {
        assert b == b[..|b| - 1] + [0];
        assert b == WEBCAM + [0] ==> b[..|b| - 1] == WEBCAM;
      }
    }
  }

  /** `get_source_info_list`: the values `f` keeps, in the order the callback saw the items. */
  function Collect<T, U>(results: seq<ListResult<T>>, f: T -> Option<U>): seq<U>
    decreases |results|
  {
    if results == [] then []
    else
      var head := if results[0].Item? && f(results[0].item).Some? then [f(results[0].item).value] else [];
      head + Collect(results[1..], f)
  }

  /** `f` keeps item `i`. */
  predicate Keeps<T, U>(results: seq<ListResult<T>>, f: T -> Option<U>, i: int)
    requires 0 <= i < |results|
  {
    results[i].Item? && f(results[i].item).Some?
  }

  lemma KeepsShift<T, U>(results: seq<ListResult<T>>, f: T -> Option<U>, i: int)
    requires 1 <= i < |results|
    ensures Keeps(results, f, i) == Keeps(results[1..], f, i - 1)
  {
    assert results[i] == results[1..][i - 1];
  }

  /** Collecting a split list collects each part and concatenates, so callback order is kept. */
  lemma {:induction false} CollectAppend<T, U>(a: seq<ListResult<T>>, b: seq<ListResult<T>>, f: T -> Option<U>)
    ensures Collect(a + b, f) == Collect(a, f) + Collect(b, f)
    decreases |a|
  {
    if a == [] {
      assert a + b == b;
    } else {
      assert (a + b)[0] == a[0] && (a + b)[1..] == a[1..] + b;
      CollectAppend(a[1..], b, f);
    }
  }

  /** The collected list is empty exactly when `f` keeps no item. */
  lemma {:induction false} CollectEmptyIff<T, U>(results: seq<ListResult<T>>, f: T -> Option<U>)
    ensures Collect(results, f) == [] <==> forall i :: 0 <= i < |results| ==> !Keeps(results, f, i)
    decreases |results|
  {
    if results != [] {
      CollectEmptyIff(results[1..], f);
      if Collect(results, f) == [] {
        forall i | 0 <= i < |results| ensures !Keeps(results, f, i) {
          if i > 0 { KeepsShift(results, f, i); }
        }
      }
      if forall i :: 0 <= i < |results| ==> !Keeps(results, f, i) {
        assert !Keeps(results, f, 0);
        forall i | 0 <= i < |results| - 1 ensures !Keeps(results[1..], f, i) {
          KeepsShift(results, f, i + 1);
        }
      }
    }
  }

  /** The first collected value comes from the first item `f` keeps. */
  lemma {:induction false} CollectFirst<T, U>(results: seq<ListResult<T>>, f: T -> Option<U>) returns (j: nat)
    requires Collect(results, f) != []
    ensures j < |results| && Keeps(results, f, j)
    ensures forall k :: 0 <= k < j ==> !Keeps(results, f, k)
    ensures Collect(results, f)[0] == f(results[j].item).value
    decreases |results|
  {
    if Keeps(results, f, 0) {
      j := 0;
    } else {
      var j' := CollectFirst(results[1..], f);
      j := j' + 1;
      forall k | 0 <= k < j ensures !Keeps(results, f, k) {
        if k > 0 { KeepsShift(results, f, k); }
      }
    }
  }

  /** The argument string of the loopback module for source `index`. */
  function LoopbackArgument(index: uint32): string {
    ARGUMENT_PREFIX + DecimalString(index) + ARGUMENT_SUFFIX
  }

  /** The loopback argument names its source: the text between the prefix and the suffix parses back to the index. */
  lemma LoopbackArgumentNamesSource(index: uint32)
    ensures var arg := LoopbackArgument(index);
      && |arg| >= |ARGUMENT_PREFIX| + |ARGUMENT_SUFFIX|
      && arg[..|ARGUMENT_PREFIX|] == ARGUMENT_PREFIX
      && arg[|arg| - |ARGUMENT_SUFFIX|..] == ARGUMENT_SUFFIX
      && ParseUnsigned(arg[|ARGUMENT_PREFIX|..|arg| - |ARGUMENT_SUFFIX|], U32_MAX) == Ok(index as nat)
  {
    var arg := LoopbackArgument(index);
    var p, d := |ARGUMENT_PREFIX|, DecimalString(index);
    assert arg[..p] == ARGUMENT_PREFIX;
    assert arg[p..|arg| - |ARGUMENT_SUFFIX|] == d;
    assert arg[|arg| - |ARGUMENT_SUFFIX|..] == ARGUMENT_SUFFIX;
    DecimalRoundTrip(index, U32_MAX);
  }

  /**
   * `find_and_load_module`, given what the source-list callback received and
   * the module id `load_module` resolves to.
   */
  function FindAndLoadModule(sourceList: seq<ListResult<SourceInfo>>, loadedId: uint32): Search {
    var found := Collect(sourceList, WebcamSource);
    if found == [] then Search(Ok(None), None)
    else
      var index := found[0].1;
      Search(Ok(Some((loadedId, index))), Some(LoadRequest(LOOPBACK_MODULE, LoopbackArgument(index))))
  }

  /**
   * `find_and_load_module` never fails; it requests no load and reports `None`
   * when no source qualifies; otherwise it loads the loopback module for the
   * FIRST qualifying source and reports (loaded module id, that source's index).
   */
  lemma FindAndLoadModuleChoosesFirst(sourceList: seq<ListResult<SourceInfo>>, loadedId: uint32)
    ensures var s := FindAndLoadModule(sourceList, loadedId);
      && s.outcome.Ok?
      && (s.outcome.value.None? <==> forall i :: 0 <= i < |sourceList| ==> !Keeps(sourceList, WebcamSource, i))
      && (s.request.None? <==> s.outcome.value.None?)
    ensures var s := FindAndLoadModule(sourceList, loadedId);
      s.outcome.value.Some? ==>
        exists j :: 0 <= j < |sourceList| && sourceList[j].Item? && WebcamSource(sourceList[j].item).Some?
          && (forall k :: 0 <= k < j ==> !Keeps(sourceList, WebcamSource, k))
          && s.outcome.value.value == (loadedId, sourceList[j].item.index)
          && s.request == Some(LoadRequest(LOOPBACK_MODULE, LoopbackArgument(sourceList[j].item.index)))
  {
    CollectEmptyIff(sourceList, WebcamSource);
    if Collect(sourceList, WebcamSource) != [] {
      var j := CollectFirst(sourceList, WebcamSource);
      assert WebcamSource(sourceList[j].item).value.1 == sourceList[j].item.index;
    }
  }
}
