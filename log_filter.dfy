/// Log filters of src/logging/filter.rs: a filter names a module, target or
/// thread and the level to log it at; `collect_by_type` selects the filters
/// of one kind.
module LogFilters {

  datatype FilterType = Module | Target | Thread

  /// `log::LevelFilter`.
  datatype LevelFilter = Off | Error | Warn | Info | Debug | Trace

  /// `LogFilter`: the kind, the name pattern and the level.
  datatype LogFilter = LogFilter(filterType: FilterType, filter: string, level: LevelFilter)

  /// `LogFilter::new` keeps its arguments, and the accessors `filter()` and
  /// `level()` give them back unchanged.
  function New(filterType: FilterType, filter: string, level: LevelFilter): (f: LogFilter)
    ensures f.filterType == filterType && f.filter == filter && f.level == level
  {
    LogFilter(filterType, filter, level)
  }

  /// The filters of kind `t` among `arr`, in their order.
  function OfType(arr: seq<LogFilter>, t: FilterType): seq<LogFilter> {
    if arr == [] then []
    else OfType(arr[..|arr| - 1], t) + (if arr[|arr| - 1].filterType == t then [arr[|arr| - 1]] else [])
  }

  /// `collect_by_type`: the loop pushes every filter of the requested kind.
  method CollectByType(arr: seq<LogFilter>, t: FilterType) returns (r: seq<LogFilter>)
    ensures r == OfType(arr, t)
  {
    r := [];
    for i := 0 to |arr|
      invariant r == OfType(arr[..i], t)
    {
      assert arr[..i + 1][..i] == arr[..i];
      if arr[i].filterType == t {
        r := r + [arr[i]];
      }
    }
    assert arr[..|arr|] == arr;
  }

  /// The selection keeps exactly the filters of the kind: every kept filter
  /// has it, and each filter of the kind is kept as often as it occurs.
  lemma {:induction false} OfTypeExact(arr: seq<LogFilter>, t: FilterType)
    ensures forall f | f in OfType(arr, t) :: f.filterType == t
    ensures forall f: LogFilter | f.filterType == t :: multiset(OfType(arr, t))[f] == multiset(arr)[f]
    ensures |OfType(arr, t)| <= |arr|
  {
    if arr != [] {
      var init, last := arr[..|arr| - 1], arr[|arr| - 1];
      assert arr == init + [last];
      OfTypeExact(init, t);
    }
  }

  /// The positions in `arr` of the filters of kind `t`, in increasing order.
  function KeptPositions(arr: seq<LogFilter>, t: FilterType): seq<nat> {
    if arr == [] then []
    else KeptPositions(arr[..|arr| - 1], t) + (if arr[|arr| - 1].filterType == t then [|arr| - 1] else [])
  }

  /// The selection keeps the input order: its k-th filter is the one at the
  /// k-th kept position, and the positions strictly increase.
  lemma {:induction false} OfTypeOrdered(arr: seq<LogFilter>, t: FilterType)
    ensures var pos := KeptPositions(arr, t);
      |pos| == |OfType(arr, t)| &&
      (forall k | 0 <= k < |pos| :: pos[k] < |arr| && arr[pos[k]] == OfType(arr, t)[k]) &&
      (forall k, l | 0 <= k < l < |pos| :: pos[k] < pos[l])
  {
    if arr != [] {
      var init := arr[..|arr| - 1];
      OfTypeOrdered(init, t);
      assert forall k | 0 <= k < |init| :: init[k] == arr[k];
    }
  }

  /// Selecting again by the same kind changes nothing.
  lemma {:induction false} OfTypeIdempotent(arr: seq<LogFilter>, t: FilterType)
    ensures OfType(OfType(arr, t), t) == OfType(arr, t)
  {
    if arr != [] {
      var init, last := arr[..|arr| - 1], arr[|arr| - 1];
      OfTypeIdempotent(init, t);
      if last.filterType == t {
        assert OfType(arr, t) == OfType(init, t) + [last];
        OfTypeAppend(OfType(init, t), last, t);
      } else {
        assert OfType(arr, t) == OfType(init, t);
      }
    }
  }

  lemma OfTypeAppend(s: seq<LogFilter>, f: LogFilter, t: FilterType)
    requires f.filterType == t
    ensures OfType(s + [f], t) == OfType(s, t) + [f]
  {
    assert (s + [f])[..|s + [f]| - 1] == s;
  }
}
