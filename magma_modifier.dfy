/**
 * The state shared by the Magma modifiers (`IMagmaModifierImpl`): the last
 * compilation error, reported to the flow editor's MAXScript callback only
 * when it changes; the validity the modifier gives the geometry channel;
 * the error policy of `ApplyModifier`; the particle cap of the debugger's
 * `EvaluateDebug`; and which reference messages it forwards.
 */
module MagmaModifier {
  import opened Common

  /** `magma_interface::INVALID_ID`, the node id of an error that names no node. */
  const InvalidId: int := -1

  /** A call of the flow editor's error callback: with the error's node id and message, or with undefined. */
  datatype Notice = ErrorNotice(nodeId: int, message: string) | ClearedNotice

  /** The modifier's Magma holder reference: whether it gives a Magma interface, and its validity at the time asked. */
  datatype Holder = Holder(hasInterface: bool, validity: Interval)

  /** How compiling and applying the holder's expression ends. */
  datatype Compilation = Compiled | MagmaFailure(message: string, nodeId: int) | StdFailure(message: string)

  /** What `ApplyModifier` does with the incoming stream: returns it, returns the Magma stream over it, or raises. */
  datatype Applied = InputStream | MagmaStream | Raised(message: string)

  /** How building the debugger's evaluation ends: a Magma error, another exception, or one of unknown type. */
  datatype DebugCompilation = DebugCompiled | DebugMagmaFailure(message: string, nodeId: int)
                            | DebugStdFailure(message: string) | DebugUnknownFailure

  /** One debugger record, filled by `eval_debug` for the particle of that index. */
  datatype DebugRecord = DebugRecord(index: nat)

  /** The parts a reference message can name; `PART_OBJ` is topology and geometry. */
  datatype Part = TopoPart | GeomPart | TmPart | OtherPart(bit: nat)

  datatype RefResult = RefSucceed | RefDontCare

  /** The particle count the debugger evaluates: the stream's, unless unknown (negative) or above the maximum. */
  function DebugCap(particleCount: int, maxIterations: nat): (n: nat)
    ensures n <= maxIterations
    ensures 0 <= particleCount <= maxIterations ==> n == particleCount
    ensures particleCount < 0 || particleCount > maxIterations ==> n == maxIterations
  {
    if particleCount < 0 || particleCount > maxIterations then maxIterations else particleCount
  }

  /** `NotifyRefChanged`: a change of the holder parameter succeeds, and forwards its parts if they touch the object or transform. */
  function RefChanged(fromParamBlock: bool, holderParam: bool, isChange: bool, parts: set<Part>): (r: (RefResult, bool))
    ensures r.1 <==> fromParamBlock && holderParam && isChange && (TopoPart in parts || GeomPart in parts || TmPart in parts)
    ensures r.0 == RefSucceed <==> fromParamBlock && holderParam && isChange
  {
    if fromParamBlock && holderParam && isChange then
      var touched := parts * {TopoPart, GeomPart, TmPart};
      assert TopoPart in parts ==> TopoPart in touched;
      assert GeomPart in parts ==> GeomPart in touched;
      assert TmPart in parts ==> TmPart in touched;
      (RefSucceed, touched != {})
    else (RefDontCare, false)
  }

  /** Whether setting the error (`id`, `msg`) changes the presence, node id or message of the current one. */
  predicate Changed(present: bool, nodeId: int, message: string, id: int, msg: string)
  {
    !present || nodeId != id || message != msg
  }

  /** A modifier with its error state and the callbacks it has sent. */
  class MagmaModifierImpl {
    var present: bool
    var message: string
    var nodeId: int
    var holder: Option<Holder>
    var notices: seq<Notice>

    /** No error: node id -43 and the message "No Error". */
    constructor (holder: Option<Holder>)
      ensures !present && nodeId == -43 && message == "No Error" && notices == [] && this.holder == holder
    {
      present := false;
      nodeId := -43;
      message := "No Error";
      this.holder := holder;
      notices := [];
    }

    /** The callback the current state sends. */
    function CurrentNotice(): (n: Notice)
      reads this
      ensures n.ErrorNotice? <==> present
      ensures present ==> n == ErrorNotice(nodeId, message)
    {
      if present then ErrorNotice(nodeId, message) else ClearedNotice
    }

    /** `notify_error_changed`. */
    method NotifyErrorChanged()
      modifies this
      ensures notices == old(notices) + [CurrentNotice()]
      ensures present == old(present) && nodeId == old(nodeId) && message == old(message) && holder == old(holder)
    {
      notices := notices + [CurrentNotice()];
    }

    /** `clear_error`: removes a present error and tells the editor; does nothing otherwise. */
    method ClearError()
      modifies this
      ensures !present && nodeId == old(nodeId) && message == old(message) && holder == old(holder)
      ensures notices == old(notices) + (if old(present) then [ClearedNotice] else [])
    {
      if present {
        present := false;
        NotifyErrorChanged();
      }
    }

    /** `set_error`: records the error, and tells the editor only if presence, node id or message changed. */
    method SetError(msg: string, id: int)
      modifies this
      ensures present && nodeId == id && message == msg && holder == old(holder)
      ensures notices == old(notices) + (if Changed(old(present), old(nodeId), old(message), id, msg) then [ErrorNotice(id, msg)] else [])
    {
      if !present || nodeId != id || msg != message {
        present := true;
        nodeId := id;
        message := msg;
        NotifyErrorChanged();
      }
    }

    /**
     * `GetLastError`: whether an error is present; the message and node id
     * outputs are written only when one is, and keep the caller's values
     * otherwise.
     */
    function GetLastError(outMessage: string, outNodeId: int): (r: (bool, string, int))
      reads this
      ensures r.0 == present
      ensures present ==> r.1 == message && r.2 == nodeId
      ensures !present ==> r.1 == outMessage && r.2 == outNodeId
    {
      if present then (true, message, nodeId) else (false, outMessage, outNodeId)
    }

    /** `LocalValidity`: the holder's validity, FOREVER without a holder, narrowed to the instant t if it misses t. */
    function LocalValidity(t: int): (iv: Interval)
      reads this
      ensures iv.start <= t <= iv.end
      ensures var base := if holder.Some? then holder.value.validity else Forever;
        (base.start <= t <= base.end ==> iv == base) && (!(base.start <= t <= base.end) ==> iv == Interval(t, t))
    {
      var base := if holder.Some? then holder.value.validity else Forever;
      if base.start <= t <= base.end then base else Interval(t, t)
    }

    /**
     * `ApplyModifier`: without a holder the stream passes through untouched.
     * Otherwise the expression is compiled only for a holder with a Magma
     * interface and a stream that may hold particles; success (or nothing
     * to compile) clears the error, a failure records it and is raised
     * again only while a render is active.
     */
    method ApplyModifier(particleCount: int, compilation: Compilation, renderActive: bool) returns (r: Applied)
      modifies this
      ensures holder == old(holder)
      ensures holder.None? ==> (r == InputStream && present == old(present) && nodeId == old(nodeId) &&
        message == old(message) && notices == old(notices))
      ensures holder.Some? && (!holder.value.hasInterface || particleCount == 0 || compilation.Compiled?) ==>
        !present && (r == if holder.value.hasInterface && particleCount != 0 then MagmaStream else InputStream) &&
        message == old(message) && nodeId == old(nodeId) &&
        notices == old(notices) + (if old(present) then [ClearedNotice] else [])
      ensures holder.Some? && holder.value.hasInterface && particleCount != 0 && compilation.MagmaFailure? ==>
        present && message == compilation.message && nodeId == compilation.nodeId &&
        r == (if renderActive then Raised(compilation.message) else InputStream) &&
        notices == old(notices) + (if Changed(old(present), old(nodeId), old(message), compilation.nodeId, compilation.message)
                                   then [ErrorNotice(compilation.nodeId, compilation.message)] else [])
      ensures holder.Some? && holder.value.hasInterface && particleCount != 0 && compilation.StdFailure? ==>
        present && message == compilation.message && nodeId == InvalidId &&
        r == (if renderActive then Raised(compilation.message) else InputStream) &&
        notices == old(notices) + (if Changed(old(present), old(nodeId), old(message), InvalidId, compilation.message)
                                   then [ErrorNotice(InvalidId, compilation.message)] else [])
    {
      if holder.None? {
        return InputStream;
      }
      r := InputStream;
      if holder.value.hasInterface && particleCount != 0 {
        match compilation
        case Compiled =>
          r := MagmaStream;
        case MagmaFailure(msg, id) =>
          SetError(msg, id);
          if renderActive {
            r := Raised(msg);
          }
          return;
        case StdFailure(msg) =>
          SetError(msg, InvalidId);
          if renderActive {
            r := Raised(msg);
          }
          return;
      }
      ClearError();
    }

    /**
     * `EvaluateDebug`: with a stream and a holder, evaluates particles one
     * at a time up to `DebugCap` of the stream's count, stopping early
     * when the stream runs out, and returns the records of those read.
     * Without a Magma interface the error is cleared and nothing returned.
     */
    method EvaluateDebug(available: Option<nat>, particleCount: int, maxIterations: nat,
                         compilation: DebugCompilation) returns (result: Option<seq<DebugRecord>>)
      modifies this
      ensures holder == old(holder)
      ensures available.None? || holder.None? ==> (result.None? && present == old(present) &&
        nodeId == old(nodeId) && message == old(message) && notices == old(notices))
      ensures result.Some? ==> available.Some? && holder.Some? && holder.value.hasInterface && compilation.DebugCompiled?
      ensures result.Some? ==> var n := if available.value < DebugCap(particleCount, maxIterations) then available.value
                                        else DebugCap(particleCount, maxIterations);
        |result.value| == n && forall i :: 0 <= i < n ==> result.value[i] == DebugRecord(i)
      ensures available.Some? && holder.Some? && (!holder.value.hasInterface || compilation.DebugCompiled?) ==>
        !present && (result.Some? <==> holder.value.hasInterface) && message == old(message) && nodeId == old(nodeId) &&
        notices == old(notices) + (if old(present) then [ClearedNotice] else [])
      ensures available.Some? && holder.Some? && holder.value.hasInterface && compilation.DebugMagmaFailure? ==>
        result.None? && present && message == compilation.message && nodeId == compilation.nodeId &&
        notices == old(notices) + (if Changed(old(present), old(nodeId), old(message), compilation.nodeId, compilation.message)
                                   then [ErrorNotice(compilation.nodeId, compilation.message)] else [])
      ensures available.Some? && holder.Some? && holder.value.hasInterface && compilation.DebugStdFailure? ==>
        result.None? && present && message == compilation.message && nodeId == InvalidId &&
        notices == old(notices) + (if Changed(old(present), old(nodeId), old(message), InvalidId, compilation.message)
                                   then [ErrorNotice(InvalidId, compilation.message)] else [])
      ensures available.Some? && holder.Some? && holder.value.hasInterface && compilation.DebugUnknownFailure? ==>
        result.None? && present == old(present) && nodeId == old(nodeId) && message == old(message) && notices == old(notices)
    {
      if available.None? || holder.None? {
        return None;
      }
      if !holder.value.hasInterface {
        ClearError();
        return None;
      }
      match compilation
      case DebugMagmaFailure(msg, id) =>
        SetError(msg, id);
        return None;
      case DebugStdFailure(msg) =>
        SetError(msg, InvalidId);
        return None;
      case DebugUnknownFailure =>
        return None;
      case DebugCompiled =>
        var storage := ReadDebugRecords(available.value, DebugCap(particleCount, maxIterations));
        ClearError();
        return Some(storage);
    }
  }

  /**
   * The debugger's loop: storage for `count` records, filled while the
   * stream still gives particles, then shrunk to the number read.
   */
  method ReadDebugRecords(available: nat, count: nat) returns (storage: seq<DebugRecord>)
    ensures |storage| == if available < count then available else count
    ensures forall i :: 0 <= i < |storage| ==> storage[i] == DebugRecord(i)
  {
    var records := seq(count, _ => DebugRecord(0));
    var index := 0;
    while index < count && index < available
      invariant 0 <= index <= count && index <= available && |records| == count
      invariant forall i :: 0 <= i < index ==> records[i] == DebugRecord(i)
    {
      records := records[index := DebugRecord(index)];
      index := index + 1;
    }
    storage := records[..index];
  }
}
