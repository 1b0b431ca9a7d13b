/** `used`: the per-observation usage flag. A record that carries
    `Analysis_Use_Flag` (conventional data) has it returned as is; a record
    that carries the per-channel `use_flag` (radiance data) gets `1` for each
    observation whose channel is in use and whose QC flag is zero, `-1`
    otherwise; any other record is refused. */
module Usage {
  import opened Outcomes
  import opened Record

  /** Python's `s[i]` for an integer `i`: a negative `i` counts back from the
      end; outside `-|s| <= i < |s|` it raises IndexError (None here). */
  function PyIndex<T>(s: seq<T>, i: int): Option<T> {
    if 0 <= i < |s| then Some(s[i])
    else if -|s| <= i < 0 then Some(s[|s| + i])
    else None
  }

  /** `use_flag[ch-1]` can be read without raising. */
  predicate ChannelKnown(useFlag: seq<int>, ch: int) {
    PyIndex(useFlag, ch - 1).Some?
  }

  /** `use_flag[ch-1] > 0`: channel `ch` is assimilated. */
  predicate ChannelOn(useFlag: seq<int>, ch: int) {
    ChannelKnown(useFlag, ch) && PyIndex(useFlag, ch - 1).value > 0
  }

  /** `np.unique(Channel_Index)`, as a set: the channels the loop visits. */
  function Channels(chidx: seq<int>): set<int> {
    set k | 0 <= k < |chidx| :: chidx[k]
  }

  /** A non-empty set has an element. */
  lemma NonEmpty(s: set<int>)
    requires s != {}
    ensures exists x :: x in s
  {
    if forall x :: x !in s {
      assert false;
    }
  }

  /** `(chidx == ch) & (qc == 0)`. */
  function Mask(chidx: seq<int>, qc: seq<int>, ch: int): seq<bool>
    requires |qc| == |chidx|
  {
    seq(|chidx|, k requires 0 <= k < |chidx| => chidx[k] == ch && qc[k] == 0)
  }

  /** `v[mask] = x`: boolean-mask assignment. */
  function MaskAssign(v: seq<int>, mask: seq<bool>, x: int): seq<int>
    requires |mask| == |v|
  {
    seq(|v|, k requires 0 <= k < |v| => if mask[k] then x else v[k])
  }

  /** Reference for the radiance branch, one observation at a time: an
      IndexError when some observation's channel cannot be looked up in
      `use_flag`, else `1` where the channel is on and QC passed, `-1`
      elsewhere. */
  function ChannelFlags(chidx: seq<int>, qc: seq<int>, useFlag: seq<int>): Result<seq<int>>
    requires |qc| == |chidx|
  {
    if exists k :: 0 <= k < |chidx| && !ChannelKnown(useFlag, chidx[k]) then Err(IndexError)
    else Ok(seq(|chidx|, k requires 0 <= k < |chidx| =>
              if ChannelOn(useFlag, chidx[k]) && qc[k] == 0 then 1 else -1))
  }

  /** The record's per-observation fields line up. */
  predicate FlagsAligned(data: Record<int>) {
    "QC_Flag" in data && "Channel_Index" in data ==>
      |data["QC_Flag"]| == |data["Channel_Index"]|
  }

  /** `used(data)`: the field fallback of the source, and in the radiance
      branch its loop over the distinct channels, each of which switches on
      the observations of that channel that passed QC. */
  method Used(data: Record<int>) returns (r: Result<seq<int>>)
    requires "Analysis_Use_Flag" !in data && "use_flag" in data ==> FlagsAligned(data)
    ensures "Analysis_Use_Flag" in data ==> r == Ok(data["Analysis_Use_Flag"])
    ensures "Analysis_Use_Flag" !in data && "use_flag" !in data ==> r == Err(NotConvOrRad)
    ensures "Analysis_Use_Flag" !in data && "use_flag" in data ==>
              if "Channel_Index" !in data then r == Err(KeyError("Channel_Index"))
              else if "QC_Flag" !in data then r == Err(KeyError("QC_Flag"))
              else r == ChannelFlags(data["Channel_Index"], data["QC_Flag"], data["use_flag"])
    ensures "Analysis_Use_Flag" !in data && r.Ok? ==>
              && "Channel_Index" in data && "QC_Flag" in data && "use_flag" in data
              && |r.value| == |data["Channel_Index"]|
              && forall k :: 0 <= k < |r.value| ==>
                   (r.value[k] == 1 <==> ChannelOn(data["use_flag"], data["Channel_Index"][k])
                                         && data["QC_Flag"][k] == 0)
                   && (r.value[k] == 1 || r.value[k] == -1)
  {
    if "Analysis_Use_Flag" in data {
      return Ok(data["Analysis_Use_Flag"]);
    }
    if "use_flag" !in data {
      return Err(NotConvOrRad);
    }
    if "Channel_Index" !in data {
      return Err(KeyError("Channel_Index"));
    }
    if "QC_Flag" !in data {
      return Err(KeyError("QC_Flag"));
    }
    var chidx, qc, chused := data["Channel_Index"], data["QC_Flag"], data["use_flag"];
    var used := seq(|chidx|, _ => -1);
    var todo := Channels(chidx);
    ghost var done: set<int> := {};
    while todo != {}
      invariant todo !! done && todo + done == Channels(chidx)
      invariant forall ch :: ch in done ==> ChannelKnown(chused, ch)
      invariant |used| == |chidx|
      invariant forall k :: 0 <= k < |chidx| ==>
                  used[k] == (if chidx[k] in done && ChannelOn(chused, chidx[k]) && qc[k] == 0 then 1 else -1)
      decreases todo
    {
      NonEmpty(todo);
      var ch :| ch in todo;
      var flag := PyIndex(chused, ch - 1);
      if flag.None? {
        ghost var k :| 0 <= k < |chidx| && chidx[k] == ch;
        assert !ChannelKnown(chused, chidx[k]);
        return Err(IndexError);
      }
      if flag.value > 0 {
        used := MaskAssign(used, Mask(chidx, qc, ch), 1);
      }
      todo := todo - {ch};
      done := done + {ch};
    }
    assert forall k :: 0 <= k < |chidx| ==> chidx[k] in done;
    assert !exists k :: 0 <= k < |chidx| && !ChannelKnown(chused, chidx[k]);
    assert used == ChannelFlags(chidx, qc, chused).value;
    r := Ok(used);
  }
}
