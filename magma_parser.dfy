/**
 * The Magma flow parser: a Magma modifier's `.flow` property is a MAXScript
 * array of node records, each a 5-element array [type, connections,
 * properties, (unused array), enabled].  `create_expression` turns it into
 * one channel-operation node per record, in order: disabled records become
 * pass-throughs, the others are dispatched on their type to the output
 * builder or to the input and operator factories of two registries that
 * are filled on first use.  Input nodes read the host scene: tracks by
 * path, controller values, script results, texture maps and meshes, the
 * meshes through a name-keyed cache that never replaces an entry.
 */
module MagmaParser {
  import opened Common
  import Krakatoa

  // ---------------------------------------------------------------------------
  // Values and errors
  // ---------------------------------------------------------------------------

  /** The MAXScript values a flow is made of. */
  datatype Value = Undefined | Str(s: string) | Arr(items: seq<Value>) | Bool(b: bool) | Int(i: int)
                 | Float(f: real) | Point3(x: real, y: real, z: real) | OtherValue

  /**
   * What the parser raises: `channel_compiler_error` with the node id, a
   * `std::runtime_error`, or a MAXScript exception (a failed conversion).
   */
  datatype Error = CompilerError(nodeId: int, message: string) | RuntimeError(message: string) | ScriptError(message: string)

  datatype Outcome<T> = Done(value: T) | Failed(error: Error)

  /** The MAXScript conversion errors of `to_string`, `to_int` and `to_bool`. */
  const NotAString: string := "Unable to convert to type: String"
  const NotAnInteger: string := "Unable to convert to type: Integer"

  // ---------------------------------------------------------------------------
  // base_node
  // ---------------------------------------------------------------------------

  datatype NodeType = OutputNode | InputNode | OperatorNode | UnknownNode

  /** `parse_node_type`. */
  function ParseNodeType(s: string): (t: NodeType)
    ensures t == OutputNode <==> s == "Output"
    ensures t == InputNode <==> s == "Input"
    ensures t == OperatorNode <==> s == "Operator"
    ensures t == UnknownNode <==> s != "Output" && s != "Input" && s != "Operator"
  {
    if s == "Output" then OutputNode
    else if s == "Input" then InputNode
    else if s == "Operator" then OperatorNode
    else UnknownNode
  }

  /** A `base_node` after a successful `reset`: its id, type, both arrays and its disabled flag. */
  datatype BaseNode = BaseNode(id: int, nodeType: NodeType, properties: seq<Value>, connections: seq<Value>, disabled: bool)

  /** A node record has exactly the shape `reset` accepts. */
  predicate WellFormed(v: Value)
  {
    v.Arr? && |v.items| == 5 && v.items[0].Str? && v.items[1].Arr? && v.items[2].Arr? && v.items[3].Arr? &&
    v.items[4].Bool?
  }

  /** `reset`: checks the record's shape element by element and reads it. */
  function Reset(v: Value, id: int): (r: Outcome<BaseNode>)
    ensures r.Done? <==> WellFormed(v)
    ensures r.Failed? ==> r.error.CompilerError? && r.error.nodeId == id
    ensures r.Done? ==> (r.value.id == id && r.value.nodeType == ParseNodeType(v.items[0].s) &&
      r.value.connections == v.items[1].items && r.value.properties == v.items[2].items &&
      r.value.disabled == !v.items[4].b)
  {
    if !v.Arr? then Failed(CompilerError(id, "Malformed Magma Node. Expected an array"))
    else if |v.items| != 5 then
      Failed(CompilerError(id, "Malformed Magma Node. Expected an array with 5 elements, got " + Decimal(|v.items|)))
    else if !v.items[0].Str? then Failed(CompilerError(id, "Malformed Magma Node. Expected a String in element 1"))
    else if !v.items[1].Arr? then Failed(CompilerError(id, "Malformed Magma Node. Expected an Array in element 2"))
    else if !v.items[2].Arr? then Failed(CompilerError(id, "Malformed Magma Node. Expected an Array in element 3"))
    else if !v.items[3].Arr? then Failed(CompilerError(id, "Malformed Magma Node. Expected an Array in element 4"))
    else if !v.items[4].Bool? then Failed(CompilerError(id, "Malformed Magma Node. Expected a Bool in element 5"))
    else Ok5(v, id)
  }

  function Ok5(v: Value, id: int): Outcome<BaseNode>
    requires WellFormed(v)
  {
    Done(BaseNode(id, ParseNodeType(v.items[0].s), v.items[2].items, v.items[1].items, !v.items[4].b))
  }

  /** `get_property`: the raw value, or an error naming the 1-based index. */
  function GetProperty(n: BaseNode, index: nat): (r: Outcome<Value>)
    ensures r.Done? <==> index < |n.properties|
    ensures r.Done? ==> r.value == n.properties[index]
    ensures r.Failed? ==> r.error == CompilerError(n.id, "Missing property #" + Decimal(index + 1))
  {
    if index < |n.properties| then Done(n.properties[index])
    else Failed(CompilerError(n.id, "Missing property #" + Decimal(1 + index)))
  }

  /** `get_property<std::string>`. */
  function GetString(n: BaseNode, index: nat): (r: Outcome<string>)
    ensures r.Done? <==> index < |n.properties| && n.properties[index].Str?
    ensures r.Done? ==> r.value == n.properties[index].s
  {
    match GetProperty(n, index)
    case Failed(e) => Failed(e)
    case Done(v) => if v.Str? then Done(v.s) else Failed(ScriptError(NotAString))
  }

  /** A C++ `(int)` cast of a float: the fraction is dropped, toward zero. */
  function Truncate(f: real): (r: int)
    ensures 0.0 <= f ==> r as real <= f < r as real + 1.0
    ensures f < 0.0 ==> r as real - 1.0 < f <= r as real
  {
    if f >= 0.0 then f.Floor else -((-f).Floor)
  }

  /** MAXScript's `to_int`: an Integer as it is, a Float truncated; any other value does not convert. */
  function ToInt(v: Value): (r: Option<int>)
    ensures r.Some? <==> v.Int? || v.Float?
    ensures v.Int? ==> r == Some(v.i)
    ensures v.Float? ==> r == Some(Truncate(v.f))
  {
    match v
    case Int(i) => Some(i)
    case Float(f) => Some(Truncate(f))
    case _ => None
  }

  /** `get_property<int>`. */
  function GetInt(n: BaseNode, index: nat): (r: Outcome<int>)
    ensures r.Done? <==> index < |n.properties| && ToInt(n.properties[index]).Some?
    ensures r.Done? ==> r.value == ToInt(n.properties[index]).value
  {
    match GetProperty(n, index)
    case Failed(e) => Failed(e)
    case Done(v) => if ToInt(v).Some? then Done(ToInt(v).value) else Failed(ScriptError(NotAnInteger))
  }

  /** `get_connection`: the stored 1-based node index made 0-based, or an error naming the 1-based slot. */
  function GetConnection(n: BaseNode, index: nat): (r: Outcome<int>)
    ensures r.Done? <==> index < |n.connections| && ToInt(n.connections[index]).Some?
    ensures r.Done? ==> r.value == ToInt(n.connections[index]).value - 1
    ensures index >= |n.connections| ==> r == Failed(CompilerError(n.id, "Missing connection #" + Decimal(index + 1)))
  {
    if index < |n.connections| then
      (match ToInt(n.connections[index])
       case Some(i) => Done(i - 1)
       case None => Failed(ScriptError(NotAnInteger)))
    else Failed(CompilerError(n.id, "Missing connection #" + Decimal(1 + index)))
  }

  // ---------------------------------------------------------------------------
  // The operation nodes a flow compiles to
  // ---------------------------------------------------------------------------

  datatype TexmapOutput = ColorOutput | MonoOutput | BumpOutput

  /** A mesh as the geometry cache holds it: the node it was copied from, at the time it was copied. */
  datatype Mesh = MeshAt(nodeName: string, time: int)

  /**
   * The channel-operation nodes; every one carries the id of the record it
   * came from.  A texture-map node with source 0 reads the bound node's
   * material, one with source k > 0 the holder's k-th texture map source.
   */
  datatype OpNode =
    | OutputOp(id: int, input: int, channel: string, arity: int, dataType: string)
    | InputChannelOp(id: int, channel: string)
    | IntValueOp(id: int, i: int)
    | FloatValueOp(id: int, values: seq<real>)
    | TexmapOp(id: int, output: TexmapOutput, source: nat)
    | GeometryOp(id: int, meshes: seq<Mesh>)
    | OperatorOp(id: int, typeName: string)
    | DisabledOp(id: int, passThrough: int)

  // ---------------------------------------------------------------------------
  // The host scene
  // ---------------------------------------------------------------------------

  /** A controller: float, point3, or of another superclass. */
  datatype Controller = FloatController(value: real) | Point3Controller(x: real, y: real, z: real) | OtherController

  /** A track view node: its named child items, and its sub-anims when it is a track holder. */
  datatype TrackNode = TrackNode(items: seq<TrackItem>, subs: seq<Controller>)
  datatype TrackItem = TrackItem(name: string, node: TrackNode)

  /**
   * What the input factories read from the host: the track view root, the
   * result each script gives, the scene nodes with meshes, the scene time,
   * whether a node is bound, and the texture map sources that hold a map.
   */
  datatype Host = Host(trackRoot: Option<TrackNode>, scripts: map<string, Value>, meshNodes: set<string>,
                       time: int, boundNode: bool, texmaps: set<nat>)

  // ---------------------------------------------------------------------------
  // Track lookup
  // ---------------------------------------------------------------------------

  /** The node of the first item called `name`. */
  function Lookup(items: seq<TrackItem>, name: string): (r: Option<TrackNode>)
    ensures r.None? <==> forall j :: 0 <= j < |items| ==> items[j].name != name
    decreases |items|
  {
    if |items| == 0 then None
    else if items[0].name == name then Some(items[0].node)
    else Lookup(items[1..], name)
  }

  /** `Lookup` finds the first matching item. */
  lemma {:induction false} LookupFirst(items: seq<TrackItem>, name: string, i: nat)
    requires i < |items| && items[i].name == name
    requires forall j :: 0 <= j < i ==> items[j].name != name
    ensures Lookup(items, name) == Some(items[i].node)
    decreases i
  {
    if i > 0 {
      LookupFirst(items[1..], name, i - 1);
    }
  }

  /** `FindTrackByName`: scans the items in order and returns the first one called `name`. */
  method FindTrackByName(cur: TrackNode, name: string) returns (r: Option<TrackNode>)
    ensures r == Lookup(cur.items, name)
  {
    for i := 0 to |cur.items|
      invariant forall j :: 0 <= j < i ==> cur.items[j].name != name
    {
      if cur.items[i].name == name {
        LookupFirst(cur.items, name, i);
        return Some(cur.items[i].node);
      }
    }
    return None;
  }

  /** `std::string::find(c, from)`: the first position at or after `from` holding `c`, or -1 (`npos`). */
  function Find(s: string, c: char, from: nat): (r: int)
    requires from <= |s|
    ensures r == -1 ==> c !in s[from..]
    ensures r != -1 ==> from <= r < |s| && s[r] == c && c !in s[from..r]
    decreases |s| - from
  {
    if from == |s| then -1
    else if s[from] == c then from
    else
      var r := Find(s, c, from + 1);
      assert s[from..] == [s[from]] + s[from + 1..];
      assert r != -1 ==> s[from..r] == [s[from]] + s[from + 1..r];
      r
  }

  function InvalidPath(id: int, path: string): Error
  {
    CompilerError(id, "Invalid path to track: \"" + path + "\"")
  }

  /** The first segment of every track path. */
  const TrackViewRoot: string := "trackViewNodes"

  /**
   * The walk of a track path's segments after "trackViewNodes": every
   * segment but the last must name an item; the last is looked up and
   * may be missing.
   */
  function Walk(id: int, path: string, cur: TrackNode, segs: seq<string>): Outcome<Option<TrackNode>>
    requires |segs| >= 1
    decreases |segs|
  {
    if |segs| == 1 then Done(Lookup(cur.items, segs[0]))
    else
      match Lookup(cur.items, segs[0])
      case None => Failed(CompilerError(id, "Invalid path to track: \"" + path + "\" at element: " + segs[0]))
      case Some(next) => Walk(id, path, next, segs[1..])
  }

  /**
   * `GetTrackByPath`, by the path's '.'-separated segments: the first must
   * be "trackViewNodes" and there must be a second.
   */
  function TrackByPath(id: int, root: Option<TrackNode>, path: string): Outcome<Option<TrackNode>>
  {
    if root.None? then Failed(CompilerError(id, "Could not get track view root for path: \"" + path + "\""))
    else
      var parts := Split(path, '.');
      if |parts| < 2 || parts[0] != TrackViewRoot then Failed(InvalidPath(id, path))
      else Walk(id, path, root.value, parts[1..])
  }

  /** A path of one segment below "trackViewNodes" is that item of the root, found or not. */
  lemma TopLevelTrack(id: int, root: TrackNode, name: string)
    requires '.' !in name
    ensures TrackByPath(id, Some(root), TrackViewRoot + "." + name) == Done(Lookup(root.items, name))
  {
    TwoSegmentTrack(id, root, TrackViewRoot, name);
  }

  /** `TopLevelTrack` for a first segment `head` that is "trackViewNodes" and has no '.'. */
  lemma TwoSegmentTrack(id: int, root: TrackNode, head: string, name: string)
    requires head == TrackViewRoot && '.' !in head && '.' !in name
    ensures TrackByPath(id, Some(root), head + "." + name) == Done(Lookup(root.items, name))
  {
    assert head + ['.'] + name == head + "." + name;
    Krakatoa.SplitOneSeparator(head, name, '.');
    assert Split(head + "." + name, '.')[1..] == [name];
  }

  /** A path without a second segment is refused. */
  lemma PathWithoutDot(id: int, root: TrackNode, path: string)
    requires '.' !in path
    ensures TrackByPath(id, Some(root), path) == Failed(InvalidPath(id, path))
  {
    Krakatoa.SplitPlain(path, '.');
  }

  /** The segments from `prev` on: the run up to the next '.', then the segments after it, or the whole rest. */
  lemma SplitAt(path: string, prev: nat)
    requires prev <= |path|
    ensures var next := Find(path, '.', prev);
      if next == -1 then Split(path[prev..], '.') == [path[prev..]]
      else Split(path[prev..], '.') == [path[prev..next]] + Split(path[next + 1..], '.')
  {
    var next := Find(path, '.', prev);
    if next == -1 {
      Krakatoa.SplitPlain(path[prev..], '.');
    } else {
      assert path[prev..] == path[prev..next] + path[next..];
      assert path[next..][1..] == path[next + 1..];
      Krakatoa.SplitPrefix(path[prev..next], path[next..], '.');
    }
  }

  /** The first segment decides between the invalid-path error and the walk of the segments after it. */
  lemma TrackByPathStart(id: int, root: TrackNode, path: string)
    ensures var next := Find(path, '.', 0);
      if next == -1 || path[..next] != TrackViewRoot then TrackByPath(id, Some(root), path) == Failed(InvalidPath(id, path))
      else TrackByPath(id, Some(root), path) == Walk(id, path, root, Split(path[next + 1..], '.'))
  {
    SplitAt(path, 0);
    assert path[0..] == path;
  }

  /** A segment followed by a '.' is looked up, and the walk goes on below it. */
  lemma WalkSegment(id: int, path: string, cur: TrackNode, prev: nat)
    requires prev <= |path| && Find(path, '.', prev) != -1
    ensures var next := Find(path, '.', prev);
      Walk(id, path, cur, Split(path[prev..], '.')) ==
        match Lookup(cur.items, path[prev..next])
        case None => Failed(CompilerError(id, "Invalid path to track: \"" + path + "\" at element: " + path[prev..next]))
        case Some(n) => Walk(id, path, n, Split(path[next + 1..], '.'))
  {
    var next := Find(path, '.', prev);
    SplitAt(path, prev);
    assert Split(path[prev..], '.')[1..] == Split(path[next + 1..], '.');
  }

  /** The last segment is looked up, found or not. */
  lemma WalkLast(id: int, path: string, cur: TrackNode, prev: nat)
    requires prev <= |path| && Find(path, '.', prev) == -1
    ensures Walk(id, path, cur, Split(path[prev..], '.')) == Done(Lookup(cur.items, path[prev..]))
  {
    SplitAt(path, prev);
  }

  /**
   * `GetTrackByPath`: moves two delimiter positions along the path,
   * looking each segment up under the previous one.
   */
  method GetTrackByPath(id: int, root: Option<TrackNode>, path: string) returns (r: Outcome<Option<TrackNode>>)
    ensures r == TrackByPath(id, root, path)
  {
    if root.None? {
      return Failed(CompilerError(id, "Could not get track view root for path: \"" + path + "\""));
    }
    var next := Find(path, '.', 0);
    TrackByPathStart(id, root.value, path);
    if next == -1 || path[..next] != TrackViewRoot {
      return Failed(InvalidPath(id, path));
    }
    r := WalkFrom(id, path, root.value, next + 1);
  }

  /** The loop of `GetTrackByPath` from the segment starting at `start`, below `node`. */
  method WalkFrom(id: int, path: string, node: TrackNode, start: nat) returns (r: Outcome<Option<TrackNode>>)
    requires start <= |path|
    ensures r == Walk(id, path, node, Split(path[start..], '.'))
  {
    var cur := node;
    var prev := start;
    var next := Find(path, '.', prev);
    while next != -1
      invariant prev <= |path| && next == Find(path, '.', prev)
      invariant Walk(id, path, node, Split(path[start..], '.')) == Walk(id, path, cur, Split(path[prev..], '.'))
      decreases |path| - prev
    {
      WalkSegment(id, path, cur, prev);
      var segment := path[prev..next];
      var found := FindTrackByName(cur, segment);
      if found.None? {
        return Failed(CompilerError(id, "Invalid path to track: \"" + path + "\" at element: " + segment));
      }
      cur := found.value;
      prev := next + 1;
      next := Find(path, '.', prev);
    }
    WalkLast(id, path, cur, prev);
    var last := FindTrackByName(cur, path[prev..]);
    return Done(last);
  }

  // ---------------------------------------------------------------------------
  // The input factories
  // ---------------------------------------------------------------------------

  /** The input factories `register_input_parsers` installs. */
  datatype InputKind = ChannelInput | ValueInput | TexmapInput | ScriptInput | GeometryInput

  const InputParsers: map<string, InputKind> :=
    map["Channel" := ChannelInput, "Value" := ValueInput, "TextureMap" := TexmapInput,
        "Script" := ScriptInput, "Geometry" := GeometryInput]

  /** `input_channel_factory`: reads the channel named by property 1. */
  function ChannelInputOp(n: BaseNode): (r: Outcome<OpNode>)
    ensures r.Done? ==> 1 < |n.properties| && n.properties[1].Str? && r.value == InputChannelOp(n.id, n.properties[1].s)
  {
    match GetString(n, 1)
    case Failed(e) => Failed(e)
    case Done(ch) => Done(InputChannelOp(n.id, ch))
  }

  /** A Max integer controller's value: the float value plus one half, floored. */
  function RoundedInt(v: real): (i: int)
    ensures i as real <= v + 0.5 < i as real + 1.0
  {
    (v + 0.5).Floor
  }

  /** The value node a track holder's controller gives for a value type. */
  function ControllerValue(id: int, valueType: string, trackPath: string, subs: seq<Controller>): (r: Outcome<OpNode>)
    requires |subs| == 3
    ensures r.Done? <==> (valueType == "Integer" && subs[0].FloatController?) ||
                         (valueType == "Float" && subs[1].FloatController?) ||
                         (valueType == "Vector" && subs[2].Point3Controller?)
    ensures r.Failed? ==> r.error.CompilerError? && r.error.nodeId == id
  {
    if valueType == "Integer" then
      (if subs[0].FloatController? then Done(IntValueOp(id, RoundedInt(subs[0].value)))
       else Failed(CompilerError(id, "Invalid Integer controller in " + trackPath)))
    else if valueType == "Float" then
      (if subs[1].FloatController? then Done(FloatValueOp(id, [subs[1].value]))
       else Failed(CompilerError(id, "Invalid controller in the Input:Value:Float node")))
    else if valueType == "Vector" then
      (if subs[2].Point3Controller? then Done(FloatValueOp(id, [subs[2].x, subs[2].y, subs[2].z]))
       else Failed(CompilerError(id, "Invalid controller in the Input:Value:Vector node")))
    else Failed(CompilerError(id, "Unexpected Input:Value type \"" + valueType + "\""))
  }

  /**
   * `input_value_factory`: property 1 the value type, property 2 the track
   * path; the track holder must exist and have exactly 3 sub-anims.
   */
  function ValueInputOp(n: BaseNode, h: Host): Outcome<OpNode>
  {
    match GetString(n, 1)
    case Failed(e) => Failed(e)
    case Done(valueType) =>
      match GetString(n, 2)
      case Failed(e) => Failed(e)
      case Done(trackPath) =>
        match TrackByPath(n.id, h.trackRoot, trackPath)
        case Failed(e) => Failed(e)
        case Done(holder) =>
          if holder.None? || |holder.value.subs| != 3 then Failed(CompilerError(n.id, "Failed to get the track holder"))
          else ControllerValue(n.id, valueType, trackPath, holder.value.subs)
  }

  /** `input_value_factory`, with the track path walked by `GetTrackByPath`. */
  method ApplyValueInput(n: BaseNode, h: Host) returns (r: Outcome<OpNode>)
    ensures r == ValueInputOp(n, h)
  {
    var valueType := GetString(n, 1);
    if valueType.Failed? {
      return Failed(valueType.error);
    }
    var trackPath := GetString(n, 2);
    if trackPath.Failed? {
      return Failed(trackPath.error);
    }
    var holder := GetTrackByPath(n.id, h.trackRoot, trackPath.value);
    if holder.Failed? {
      return Failed(holder.error);
    }
    if holder.value.None? || |holder.value.value.subs| != 3 {
      return Failed(CompilerError(n.id, "Failed to get the track holder"));
    }
    return ControllerValue(n.id, valueType.value, trackPath.value, holder.value.value.subs);
  }

  /** The texture map output a type string names. */
  function TexmapOutputOf(s: string): (r: Option<TexmapOutput>)
    ensures r.Some? <==> s == "Color" || s == "Mono" || s == "Perturb"
  {
    if s == "Color" then Some(ColorOutput)
    else if s == "Mono" then Some(MonoOutput)
    else if s == "Perturb" then Some(BumpOutput)
    else None
  }

  /** The output type string: property 2 when the node has more than two properties, else "Color". */
  function TexmapOutputString(n: BaseNode): (r: Outcome<string>)
    ensures |n.properties| <= 2 ==> r == Done("Color")
  {
    if |n.properties| > 2 then GetString(n, 2) else Done("Color")
  }

  /**
   * `input_texmap_factory`: property 1 is a 1-based texture map index, 1
   * meaning the bound node's material; the output type must be Color, Mono
   * or Perturb.
   */
  function TexmapInputOp(n: BaseNode, h: Host): (r: Outcome<OpNode>)
    ensures r.Done? ==> (1 < |n.properties| && ToInt(n.properties[1]).Some? && ToInt(n.properties[1]).value >= 1 &&
      r.value.TexmapOp? && r.value.id == n.id && r.value.source == ToInt(n.properties[1]).value - 1)
    ensures r.Done? && r.value.source == 0 ==> h.boundNode
    ensures r.Done? && r.value.source > 0 ==> r.value.source in h.texmaps
  {
    match GetInt(n, 1)
    case Failed(e) => Failed(e)
    case Done(i) =>
      var texIndex := i - 1;
      if texIndex < 0 then Failed(CompilerError(n.id, "Invalid texture map index: " + SignedDecimal(texIndex)))
      else
        match TexmapOutputString(n)
        case Failed(e) => Failed(e)
        case Done(s) =>
          match TexmapOutputOf(s)
          case None => Failed(CompilerError(n.id, "Invalid texture map output type: \"" + s + "\"."))
          case Some(output) =>
            if texIndex == 0 then
              (if !h.boundNode then
                 Failed(CompilerError(n.id, "The selected texture map is not valid in this context. Please choose a different one."))
               else Done(TexmapOp(n.id, output, 0)))
            else if texIndex in h.texmaps then Done(TexmapOp(n.id, output, texIndex))
            else Failed(CompilerError(n.id, "The selected texture map is not valid. Please choose a different one."))
  }

  /** `input_script_factory`: the script's result must be a point3, an integer or a number. */
  function ScriptInputOp(n: BaseNode, h: Host): (r: Outcome<OpNode>)
    ensures r.Done? ==> 1 < |n.properties| && n.properties[1].Str?
    ensures r.Done? ==> var v := ScriptResult(h, n.properties[1].s);
      (v.Point3? && r.value == FloatValueOp(n.id, [v.x, v.y, v.z])) ||
      (v.Int? && r.value == IntValueOp(n.id, v.i)) ||
      (v.Float? && r.value == FloatValueOp(n.id, [v.f]))
    ensures GetString(n, 1).Done? && r.Failed? ==>
      r.error == CompilerError(n.id, "Result of Input:Script was invalid")
  {
    match GetString(n, 1)
    case Failed(e) => Failed(e)
    case Done(script) =>
      var v := ScriptResult(h, script);
      if v.Point3? then Done(FloatValueOp(n.id, [v.x, v.y, v.z]))
      else if v.Int? then Done(IntValueOp(n.id, v.i))
      else if v.Float? then Done(FloatValueOp(n.id, [v.f]))
      else Failed(CompilerError(n.id, "Result of Input:Script was invalid"))
  }

  /** What executing a script gives: its result, or undefined. */
  function ScriptResult(h: Host, script: string): Value
  {
    if script in h.scripts then h.scripts[script] else Undefined
  }

  // ---------------------------------------------------------------------------
  // The geometry cache
  // ---------------------------------------------------------------------------

  /** `geometry_provider_impl`: meshes by node name. */
  class GeometryCache {
    var entries: map<string, Mesh>

    constructor ()
      ensures entries == map[]
    {
      entries := map[];
    }

    /** `clear`. */
    method Clear()
      modifies this
      ensures entries == map[]
    {
      entries := map[];
    }

    /** `has_geometry`. */
    predicate HasGeometry(name: string)
      reads this
    {
      name in entries
    }

    /** `get_geometry`: the cached mesh, or an error naming the missing node. */
    function GetGeometry(name: string): (r: Outcome<Mesh>)
      reads this
      ensures r.Done? <==> HasGeometry(name)
      ensures r.Done? ==> r.value == entries[name]
      ensures r.Failed? ==> r.error == RuntimeError("No geometry with name: \"" + name + "\"")
    {
      if name in entries then Done(entries[name]) else Failed(RuntimeError("No geometry with name: \"" + name + "\""))
    }

    /** `set_geometry`: `std::map::insert`, which keeps an entry already there. */
    method SetGeometry(name: string, mesh: Mesh)
      modifies this
      ensures entries == Inserted(old(entries), name, mesh)
    {
      if name !in entries {
        entries := entries[name := mesh];
      }
    }
  }

  /** `std::map::insert`: adds the entry unless the key is already present. */
  function Inserted(m: map<string, Mesh>, name: string, mesh: Mesh): (r: map<string, Mesh>)
    ensures name in r && forall k :: k in m ==> k in r && r[k] == m[k]
    ensures name !in m ==> r[name] == mesh
    ensures r.Keys == m.Keys + {name}
  {
    if name in m then m else m[name := mesh]
  }

  /**
   * `input_geometry_factory` on the first items of its name list: the
   * meshes so far and the cache after them, or the first error with the
   * cache as the error found it.
   */
  function GeometryFold(id: int, names: seq<Value>, h: Host, cache: map<string, Mesh>): (r: (Outcome<seq<Mesh>>, map<string, Mesh>))
    ensures forall k :: k in cache ==> k in r.1 && r.1[k] == cache[k]
    ensures r.0.Done? ==> (|r.0.value| == |names| &&
      forall i :: 0 <= i < |names| ==> names[i].Str? && names[i].s in r.1 && r.0.value[i] == r.1[names[i].s])
    decreases |names|
  {
    if |names| == 0 then (Done([]), cache)
    else
      var prev := GeometryFold(id, names[..|names| - 1], h, cache);
      var c := prev.1;
      if prev.0.Failed? then prev
      else
        var v := names[|names| - 1];
        if !v.Str? then (Failed(ScriptError(NotAString)), c)
        else if v.s in c then (Done(prev.0.value + [c[v.s]]), c)
        else if v.s !in h.meshNodes then
          (Failed(CompilerError(id, "A node object named: \"" + v.s + "\" was not found. Did you delete it?")), c)
        else
          var m := MeshAt(v.s, h.time);
          (Done(prev.0.value + [m]), c[v.s := m])
  }

  /** `input_geometry_factory`: property 1 must be an array of node names. */
  function GeometryInputOp(n: BaseNode, h: Host, cache: map<string, Mesh>): (r: (Outcome<OpNode>, map<string, Mesh>))
  {
    match GetProperty(n, 1)
    case Failed(e) => (Failed(e), cache)
    case Done(v) =>
      if !v.Arr? then (Failed(CompilerError(n.id, "Malformed geometry input. Expected an array for property 2.")), cache)
      else
        var g := GeometryFold(n.id, v.items, h, cache);
        (if g.0.Done? then Done(GeometryOp(n.id, g.0.value)) else Failed(g.0.error), g.1)
  }

  /** A geometry input only adds meshes to the cache, and its node lists the cached mesh of every name. */
  lemma GeometryInputKeepsCache(n: BaseNode, h: Host, cache: map<string, Mesh>)
    ensures var r := GeometryInputOp(n, h, cache);
      (forall k :: k in cache ==> k in r.1 && r.1[k] == cache[k]) &&
      (r.0.Done? ==> (r.0.value.GeometryOp? && r.0.value.id == n.id && n.properties[1].Arr? &&
        |r.0.value.meshes| == |n.properties[1].items| &&
        forall i :: 0 <= i < |r.0.value.meshes| ==>
          n.properties[1].items[i].Str? && r.0.value.meshes[i] == r.1[n.properties[1].items[i].s]))
  {
  }

  /** The loop of `input_geometry_factory`: copies a mesh only for a name not cached yet. */
  method ApplyGeometryInput(n: BaseNode, h: Host, cache: GeometryCache) returns (r: Outcome<OpNode>)
    modifies cache
    ensures (r, cache.entries) == GeometryInputOp(n, h, old(cache.entries))
  {
    var list := GetProperty(n, 1);
    if list.Failed? {
      return Failed(list.error);
    }
    if !list.value.Arr? {
      return Failed(CompilerError(n.id, "Malformed geometry input. Expected an array for property 2."));
    }
    var names := list.value.items;
    ghost var start := cache.entries;
    var meshes: seq<Mesh> := [];
    var i := 0;
    while i < |names|
      invariant 0 <= i <= |names|
      invariant GeometryFold(n.id, names[..i], h, start) == (Done(meshes), cache.entries)
    {
      assert names[..i + 1][..i] == names[..i];
      var v := names[i];
      if !v.Str? {
        FoldErrorStays(n.id, names, h, start, i + 1);
        return Failed(ScriptError(NotAString));
      }
      if !cache.HasGeometry(v.s) {
        if v.s !in h.meshNodes {
          FoldErrorStays(n.id, names, h, start, i + 1);
          return Failed(CompilerError(n.id, "A node object named: \"" + v.s + "\" was not found. Did you delete it?"));
        }
        cache.SetGeometry(v.s, MeshAt(v.s, h.time));
      }
      var m := cache.GetGeometry(v.s);
      meshes := meshes + [m.value];
      i := i + 1;
    }
    assert names[..i] == names;
    return Done(GeometryOp(n.id, meshes));
  }

  /** Once a prefix of the names fails, the whole list fails the same way with the same cache. */
  lemma {:induction false} FoldErrorStays(id: int, names: seq<Value>, h: Host, cache: map<string, Mesh>, k: nat)
    requires k <= |names| && GeometryFold(id, names[..k], h, cache).0.Failed?
    ensures GeometryFold(id, names, h, cache) == GeometryFold(id, names[..k], h, cache)
    decreases |names| - k
  {
    if k < |names| {
      assert names[..k + 1][..k] == names[..k];
      FoldErrorStays(id, names, h, cache, k + 1);
    } else {
      assert names[..k] == names;
    }
  }

  // ---------------------------------------------------------------------------
  // parser_interface::parse_node
  // ---------------------------------------------------------------------------

  /**
   * The two factory registries, shared by every parser and filled on first
   * use: the inputs by `register_input_parsers`, the operators by
   * `register_operator_parsers` (whose parsers are given by name).
   */
  class FactoryRegistry {
    var inputFactories: map<string, InputKind>
    var operatorFactories: set<string>
    const operatorParsers: set<string>

    constructor (operatorParsers: set<string>)
      ensures inputFactories == map[] && operatorFactories == {} && this.operatorParsers == operatorParsers
    {
      this.operatorParsers := operatorParsers;
      inputFactories := map[];
      operatorFactories := {};
    }

    /** Fills the input registry if it is empty, and leaves it alone otherwise. */
    method EnsureInputs()
      modifies this
      ensures inputFactories == if old(inputFactories) == map[] then InputParsers else old(inputFactories)
      ensures operatorFactories == old(operatorFactories)
    {
      if inputFactories == map[] {
        inputFactories := InputParsers;
      }
    }

    /** Fills the operator registry if it is empty, and leaves it alone otherwise. */
    method EnsureOperators()
      modifies this
      ensures operatorFactories == if old(operatorFactories) == {} then operatorParsers else old(operatorFactories)
      ensures inputFactories == old(inputFactories)
    {
      if operatorFactories == {} {
        operatorFactories := operatorParsers;
      }
    }
  }

  /**
   * An output node: input from connection 0, channel from property 0, data
   * type from property 1, arity from property 2, read in that order.
   */
  function OutputNodeOp(n: BaseNode): (r: Outcome<OpNode>)
    ensures r.Done? <==> (0 < |n.connections| && ToInt(n.connections[0]).Some? && 2 < |n.properties| &&
      n.properties[0].Str? && n.properties[1].Str? && ToInt(n.properties[2]).Some?)
    ensures r.Done? ==>
      r.value == OutputOp(n.id, ToInt(n.connections[0]).value - 1, n.properties[0].s, ToInt(n.properties[2]).value,
                          n.properties[1].s)
  {
    match GetConnection(n, 0)
    case Failed(e) => Failed(e)
    case Done(input) =>
      match GetString(n, 0)
      case Failed(e) => Failed(e)
      case Done(channel) =>
        match GetString(n, 1)
        case Failed(e) => Failed(e)
        case Done(dataType) =>
          match GetInt(n, 2)
          case Failed(e) => Failed(e)
          case Done(arity) => Done(OutputOp(n.id, input, channel, arity, dataType))
  }

  /** The node the input factory `kind` makes. */
  function InputOp(n: BaseNode, kind: InputKind, h: Host, cache: map<string, Mesh>): (Outcome<OpNode>, map<string, Mesh>)
  {
    match kind
    case ChannelInput => (ChannelInputOp(n), cache)
    case ValueInput => (ValueInputOp(n, h), cache)
    case TexmapInput => (TexmapInputOp(n, h), cache)
    case ScriptInput => (ScriptInputOp(n, h), cache)
    case GeometryInput => GeometryInputOp(n, h, cache)
  }

  /** An input or operator node of the type named by property 0, given the registries after filling. */
  function NodeOp(n: BaseNode, inputs: map<string, InputKind>, operators: set<string>, h: Host,
                  cache: map<string, Mesh>): (Outcome<OpNode>, map<string, Mesh>)
  {
    match n.nodeType
    case OutputNode => (OutputNodeOp(n), cache)
    case UnknownNode => (Failed(CompilerError(n.id, "Unknown node type")), cache)
    case InputNode =>
      (match GetString(n, 0)
       case Failed(e) => (Failed(e), cache)
       case Done(t) =>
         if t !in inputs then (Failed(CompilerError(n.id, "Unknown Input type: \"" + t + "\"")), cache)
         else InputOp(n, inputs[t], h, cache))
    case OperatorNode =>
      match GetString(n, 0)
      case Failed(e) => (Failed(e), cache)
      case Done(t) =>
        if t !in operators then (Failed(CompilerError(n.id, "Unknown Operator type: \"" + t + "\"")), cache)
        else (Done(OperatorOp(n.id, t)), cache)
  }

  /** A node made for record `id`, or an error naming it unless it is a host error. */
  predicate NamesNode(r: Outcome<OpNode>, id: int)
  {
    (r.Done? ==> r.value.id == id && !r.value.DisabledOp?) &&
    (r.Failed? && r.error.CompilerError? ==> r.error.nodeId == id)
  }

  lemma InputOpKeepsId(n: BaseNode, kind: InputKind, h: Host, cache: map<string, Mesh>)
    ensures NamesNode(InputOp(n, kind, h, cache).0, n.id)
    ensures var c := InputOp(n, kind, h, cache).1; forall k :: k in cache ==> k in c && c[k] == cache[k]
  {
    match kind
    case ChannelInput =>
    case ValueInput => ValueInputNamesNode(n, h);
    case TexmapInput => TexmapInputNamesNode(n, h);
    case ScriptInput =>
    case GeometryInput =>
      GeometryFailsWithId(n, h, cache);
      GeometryInputKeepsCache(n, h, cache);
  }

  lemma ValueInputNamesNode(n: BaseNode, h: Host)
    ensures NamesNode(ValueInputOp(n, h), n.id)
  {
    if GetString(n, 2).Done? {
      WalkFailsWithId(n.id, h.trackRoot, n.properties[2].s);
    }
  }

  lemma TexmapInputNamesNode(n: BaseNode, h: Host)
    ensures NamesNode(TexmapInputOp(n, h), n.id)
  {
  }

  /** Every node a record compiles to carries the record's id, and the cache keeps every entry it had. */
  lemma NodeOpKeepsId(n: BaseNode, inputs: map<string, InputKind>, operators: set<string>, h: Host,
                      cache: map<string, Mesh>)
    ensures NamesNode(NodeOp(n, inputs, operators, h, cache).0, n.id)
    ensures var c := NodeOp(n, inputs, operators, h, cache).1;
      forall k :: k in cache ==> k in c && c[k] == cache[k]
  {
    if n.nodeType == InputNode && GetString(n, 0).Done? && GetString(n, 0).value in inputs {
      InputOpKeepsId(n, inputs[GetString(n, 0).value], h, cache);
    }
  }

  lemma WalkErrorId(id: int, path: string, cur: TrackNode, segs: seq<string>)
    requires |segs| >= 1
    ensures Walk(id, path, cur, segs).Failed? ==> (Walk(id, path, cur, segs).error.CompilerError? &&
      Walk(id, path, cur, segs).error.nodeId == id)
    decreases |segs|
  {
    if |segs| > 1 {
      match Lookup(cur.items, segs[0])
      case None =>
      case Some(next) => WalkErrorId(id, path, next, segs[1..]);
    }
  }

  lemma WalkFailsWithId(id: int, root: Option<TrackNode>, path: string)
    ensures TrackByPath(id, root, path).Failed? ==> (TrackByPath(id, root, path).error.CompilerError? &&
      TrackByPath(id, root, path).error.nodeId == id)
  {
    if root.Some? {
      var parts := Split(path, '.');
      if |parts| >= 2 && parts[0] == TrackViewRoot {
        WalkErrorId(id, path, root.value, parts[1..]);
      }
    }
  }

  lemma {:induction false} FoldErrorId(id: int, names: seq<Value>, h: Host, cache: map<string, Mesh>)
    ensures var r := GeometryFold(id, names, h, cache).0; r.Failed? && r.error.CompilerError? ==> r.error.nodeId == id
    decreases |names|
  {
    if |names| > 0 {
      FoldErrorId(id, names[..|names| - 1], h, cache);
    }
  }

  lemma GeometryFailsWithId(n: BaseNode, h: Host, cache: map<string, Mesh>)
    ensures var r := GeometryInputOp(n, h, cache).0; r.Failed? && r.error.CompilerError? ==> r.error.nodeId == n.id
  {
    if GetProperty(n, 1).Done? && GetProperty(n, 1).value.Arr? {
      FoldErrorId(n.id, GetProperty(n, 1).value.items, h, cache);
    }
  }

  /**
   * `parse_node`: dispatches on the node type, filling a registry on its
   * first use; output nodes are built here, input and operator nodes by
   * the factory registered under property 0.
   */
  method ParseNode(n: BaseNode, registry: FactoryRegistry, cache: GeometryCache, h: Host) returns (r: Outcome<OpNode>)
    modifies registry, cache
    ensures n.nodeType == InputNode ==>
      registry.inputFactories == (if old(registry.inputFactories) == map[] then InputParsers else old(registry.inputFactories))
    ensures n.nodeType != InputNode ==> registry.inputFactories == old(registry.inputFactories)
    ensures n.nodeType == OperatorNode ==>
      registry.operatorFactories == (if old(registry.operatorFactories) == {} then registry.operatorParsers else old(registry.operatorFactories))
    ensures n.nodeType != OperatorNode ==> registry.operatorFactories == old(registry.operatorFactories)
    ensures (r, cache.entries) == NodeOp(n, registry.inputFactories, registry.operatorFactories, h, old(cache.entries))
  {
    match n.nodeType
    case OutputNode =>
      r := OutputNodeOp(n);
    case UnknownNode =>
      r := Failed(CompilerError(n.id, "Unknown node type"));
    case InputNode => {
      registry.EnsureInputs();
      var t := GetString(n, 0);
      if t.Failed? {
        return Failed(t.error);
      }
      if t.value !in registry.inputFactories {
        return Failed(CompilerError(n.id, "Unknown Input type: \"" + t.value + "\""));
      }
      match registry.inputFactories[t.value]
      case ChannelInput => r := ChannelInputOp(n);
      case ValueInput => r := ApplyValueInput(n, h);
      case TexmapInput => r := TexmapInputOp(n, h);
      case ScriptInput => r := ScriptInputOp(n, h);
      case GeometryInput => r := ApplyGeometryInput(n, h, cache);
    }
    case OperatorNode =>
      registry.EnsureOperators();
      var t := GetString(n, 0);
      if t.Failed? {
        return Failed(t.error);
      }
      if t.value !in registry.operatorFactories {
        return Failed(CompilerError(n.id, "Unknown Operator type: \"" + t.value + "\""));
      }
      r := Done(OperatorOp(n.id, t.value));
  }

  // ---------------------------------------------------------------------------
  // magma_mxs_parser_impl::create_expression
  // ---------------------------------------------------------------------------

  /** A Magma holder: its `.flow` value and the texture map sources that hold a map. */
  datatype MagmaHolder = MagmaHolder(flow: Value, texmaps: set<nat>)

  /** A disabled node's pass-through: connection 0 when it exists and is below the flow size, else -1. */
  function PassThrough(n: BaseNode, size: nat): (r: Outcome<int>)
    ensures |n.connections| == 0 ==> r == Done(-1)
    ensures r.Done? && |n.connections| > 0 ==>
      ToInt(n.connections[0]).Some? &&
      (r.value == if ToInt(n.connections[0]).value - 1 >= size then -1 else ToInt(n.connections[0]).value - 1)
    ensures r.Done? ==> r.value < size
  {
    if |n.connections| == 0 then Done(-1)
    else
      match GetConnection(n, 0)
      case Failed(e) => Failed(e)
      case Done(c) => Done(if c >= size then -1 else c)
  }

  /** A MAXScript exception leaves `create_expression` as a `std::runtime_error` with its text. */
  function Rethrown(e: Error): (r: Error)
    ensures !r.ScriptError?
    ensures !e.ScriptError? ==> r == e
    ensures e.ScriptError? ==> r == RuntimeError(e.message)
  {
    if e.ScriptError? then RuntimeError(e.message) else e
  }

  /** What parsing the nodes changes: the two factory registries and the geometry cache. */
  datatype FlowState = FlowState(inputs: map<string, InputKind>, operators: set<string>, cache: map<string, Mesh>)

  /**
   * `parse_node` on a state: the registry of the node's kind is filled
   * first if it is empty, then the node's operation is built.
   */
  function NodeStep(n: BaseNode, st: FlowState, operatorParsers: set<string>, h: Host): (Outcome<OpNode>, FlowState)
  {
    var inputs := if n.nodeType == InputNode && st.inputs == map[] then InputParsers else st.inputs;
    var operators := if n.nodeType == OperatorNode && st.operators == {} then operatorParsers else st.operators;
    var r := NodeOp(n, inputs, operators, h, st.cache);
    (r.0, FlowState(inputs, operators, r.1))
  }

  /**
   * One element of the flow in `create_expression`: the node is reset from
   * its value; a disabled node becomes a pass-through, any other is parsed.
   * A failure is rethrown.
   */
  function FlowItem(v: Value, k: nat, size: nat, st: FlowState, operatorParsers: set<string>, h: Host): (Outcome<OpNode>, FlowState)
  {
    match Reset(v, k)
    case Failed(e) => (Failed(Rethrown(e)), st)
    case Done(node) =>
      if node.disabled then
        match PassThrough(node, size)
        case Failed(e) => (Failed(Rethrown(e)), st)
        case Done(pass) => (Done(DisabledOp(k, pass)), st)
      else
        var r := NodeStep(node, st, operatorParsers, h);
        (if r.0.Failed? then Failed(Rethrown(r.0.error)) else r.0, r.1)
  }

  /**
   * The first `i` elements of the flow: the operations built, the error
   * that stopped the loop if one did, and the state after them.
   */
  function FlowPrefix(items: seq<Value>, i: nat, st: FlowState, operatorParsers: set<string>, h: Host):
    (r: (seq<OpNode>, Option<Error>, FlowState))
    requires i <= |items|
    ensures |r.0| <= i
    ensures r.1.None? <==> |r.0| == i
  {
    if i == 0 then ([], None, st)
    else
      var prev := FlowPrefix(items, i - 1, st, operatorParsers, h);
      if prev.1.Some? then prev
      else
        var r := FlowItem(items[i - 1], i - 1, |items|, prev.2, operatorParsers, h);
        if r.0.Failed? then (prev.0, Some(r.0.error), r.1) else (prev.0 + [r.0.value], None, r.1)
  }

  /** The k-th operation of the flow is what element k gives in the state after the first k elements. */
  lemma {:induction false} FlowPrefixOneByOne(items: seq<Value>, i: nat, st: FlowState, operatorParsers: set<string>,
                                              h: Host, k: nat)
    requires i <= |items| && k < |FlowPrefix(items, i, st, operatorParsers, h).0|
    ensures var before := FlowPrefix(items, k, st, operatorParsers, h);
      before.1.None? &&
      FlowItem(items[k], k, |items|, before.2, operatorParsers, h).0 == Done(FlowPrefix(items, i, st, operatorParsers, h).0[k])
    decreases i
  {
    var prev := FlowPrefix(items, i - 1, st, operatorParsers, h);
    var all := FlowPrefix(items, i, st, operatorParsers, h);
    if k < |prev.0| {
      assert all.0[k] == prev.0[k];
      FlowPrefixOneByOne(items, i - 1, st, operatorParsers, h, k);
    } else {
      assert prev.1.None? && k == i - 1;
      var r := FlowItem(items[k], k, |items|, prev.2, operatorParsers, h);
      assert r.0.Done? && all.0 == prev.0 + [r.0.value];
    }
  }

  /** Once an element fails, the rest of the flow is not read. */
  lemma FlowPrefixStops(items: seq<Value>, i: nat, n: nat, st: FlowState, operatorParsers: set<string>, h: Host)
    requires i <= n <= |items| && FlowPrefix(items, i, st, operatorParsers, h).1.Some?
    ensures FlowPrefix(items, n, st, operatorParsers, h) == FlowPrefix(items, i, st, operatorParsers, h)
  {
    var stopped := FlowPrefix(items, i, st, operatorParsers, h);
    var m := i;
    while m < n
      invariant i <= m <= n && FlowPrefix(items, m, st, operatorParsers, h) == stopped
    {
      FlowPrefixHalts(items, m + 1, st, operatorParsers, h);
      m := m + 1;
    }
  }

  /** A stopped loop stays stopped for one more element. */
  lemma FlowPrefixHalts(items: seq<Value>, n: nat, st: FlowState, operatorParsers: set<string>, h: Host)
    requires 0 < n <= |items| && FlowPrefix(items, n - 1, st, operatorParsers, h).1.Some?
    ensures FlowPrefix(items, n, st, operatorParsers, h) == FlowPrefix(items, n - 1, st, operatorParsers, h)
  {
  }

  /** Every mesh of cache `a` is in cache `b`, unchanged. */
  predicate CacheGrows(a: map<string, Mesh>, b: map<string, Mesh>)
  {
    forall n :: n in a ==> n in b && b[n] == a[n]
  }

  /** The flow keeps every cached mesh. */
  lemma {:induction false} FlowPrefixKeepsCache(items: seq<Value>, i: nat, st: FlowState, operatorParsers: set<string>,
                                               h: Host)
    requires i <= |items|
    ensures CacheGrows(st.cache, FlowPrefix(items, i, st, operatorParsers, h).2.cache)
    decreases i
  {
    if i > 0 {
      FlowPrefixKeepsCache(items, i - 1, st, operatorParsers, h);
      var prev := FlowPrefix(items, i - 1, st, operatorParsers, h);
      if prev.1.None? {
        FlowItemFacts(items[i - 1], i - 1, |items|, prev.2, operatorParsers, h);
      }
    }
  }

  /**
   * An element's operation carries the element's index, is a pass-through
   * exactly for a disabled node, and is what `parse_node` builds for an
   * enabled one; no element drops a cached mesh.
   */
  lemma FlowItemFacts(v: Value, k: nat, size: nat, st: FlowState, operatorParsers: set<string>, h: Host)
    ensures var r := FlowItem(v, k, size, st, operatorParsers, h);
      r.0.Done? ==>
        r.0.value.id == k && WellFormed(v) &&
        (Reset(v, k).value.disabled <==> r.0.value.DisabledOp?) &&
        (r.0.value.DisabledOp? ==> Done(r.0.value.passThrough) == PassThrough(Reset(v, k).value, size)) &&
        (!r.0.value.DisabledOp? ==> NodeStep(Reset(v, k).value, st, operatorParsers, h).0 == r.0)
    ensures CacheGrows(st.cache, FlowItem(v, k, size, st, operatorParsers, h).1.cache)
  {
    var node := Reset(v, k);
    if node.Done? && !node.value.disabled {
      var inputs := if node.value.nodeType == InputNode && st.inputs == map[] then InputParsers else st.inputs;
      var operators := if node.value.nodeType == OperatorNode && st.operators == {} then operatorParsers else st.operators;
      NodeOpKeepsId(node.value, inputs, operators, h, st.cache);
    }
  }

  /**
   * Every operation `create_expression` builds carries its element's index
   * and is a pass-through exactly for a disabled node; the cache only grows.
   */
  lemma FlowFacts(items: seq<Value>, st: FlowState, operatorParsers: set<string>, h: Host)
    ensures var r := FlowPrefix(items, |items|, st, operatorParsers, h);
      forall k :: 0 <= k < |r.0| ==>
        r.0[k].id == k && WellFormed(items[k]) &&
        (Reset(items[k], k).value.disabled <==> r.0[k].DisabledOp?) &&
        (r.0[k].DisabledOp? ==> Done(r.0[k].passThrough) == PassThrough(Reset(items[k], k).value, |items|))
    ensures CacheGrows(st.cache, FlowPrefix(items, |items|, st, operatorParsers, h).2.cache)
  {
    var r := FlowPrefix(items, |items|, st, operatorParsers, h);
    forall k | 0 <= k < |r.0|
      ensures r.0[k].id == k && WellFormed(items[k]) &&
        (Reset(items[k], k).value.disabled <==> r.0[k].DisabledOp?) &&
        (r.0[k].DisabledOp? ==> Done(r.0[k].passThrough) == PassThrough(Reset(items[k], k).value, |items|))
    {
      FlowPrefixOneByOne(items, |items|, st, operatorParsers, h, k);
      FlowItemFacts(items[k], k, |items|, FlowPrefix(items, k, st, operatorParsers, h).2, operatorParsers, h);
    }
    FlowPrefixKeepsCache(items, |items|, st, operatorParsers, h);
  }

  /**
   * An enabled node's operation is what `parse_node` builds from the reset
   * node, with the registries and the cache the elements before it left.
   */
  lemma FlowParsesEnabledNodes(items: seq<Value>, st: FlowState, operatorParsers: set<string>, h: Host, k: nat)
    requires k < |FlowPrefix(items, |items|, st, operatorParsers, h).0|
    ensures var ops := FlowPrefix(items, |items|, st, operatorParsers, h).0;
      !ops[k].DisabledOp? ==>
        Reset(items[k], k).Done? &&
        NodeStep(Reset(items[k], k).value, FlowPrefix(items, k, st, operatorParsers, h).2, operatorParsers, h).0 == Done(ops[k])
  {
    FlowPrefixOneByOne(items, |items|, st, operatorParsers, h, k);
    FlowItemFacts(items[k], k, |items|, FlowPrefix(items, k, st, operatorParsers, h).2, operatorParsers, h);
  }

  /** `magma_mxs_parser_impl`: the Magma holder, the bound node and the geometry cache. */
  class MxsParser {
    var holder: Option<MagmaHolder>
    var boundNode: bool
    var geometry: GeometryCache

    constructor ()
      ensures holder.None? && !boundNode && fresh(geometry) && geometry.entries == map[]
    {
      holder := None;
      boundNode := false;
      geometry := new GeometryCache();
    }

    /**
     * One element of the flow, as the loop of `create_expression` handles
     * it: reset the node, then build its pass-through or parse it.
     */
    method ParseFlowItem(v: Value, k: nat, size: nat, registry: FactoryRegistry, ctx: Host) returns (r: Outcome<OpNode>)
      modifies registry, geometry
      ensures (r, FlowState(registry.inputFactories, registry.operatorFactories, geometry.entries)) ==
        FlowItem(v, k, size, FlowState(old(registry.inputFactories), old(registry.operatorFactories), old(geometry.entries)),
                 registry.operatorParsers, ctx)
    {
      var node := Reset(v, k);
      if node.Failed? {
        return Failed(Rethrown(node.error));
      }
      if node.value.disabled {
        var pass := PassThrough(node.value, size);
        if pass.Failed? {
          return Failed(Rethrown(pass.error));
        }
        return Done(DisabledOp(k, pass.value));
      }
      r := ParseNode(node.value, registry, geometry, ctx);
      if r.Failed? {
        r := Failed(Rethrown(r.error));
      }
    }

    /**
     * `create_expression`: nothing without a holder; otherwise the flow
     * must be an array, and record i becomes the node with id i, or a
     * pass-through if it is disabled.  On an error the nodes made so far
     * are kept and the error is returned.
     */
    method CreateExpression(registry: FactoryRegistry, host: Host) returns (ops: seq<OpNode>, err: Option<Error>)
      modifies registry, geometry
      ensures holder.None? ==> ops == [] && err.None? && geometry.entries == old(geometry.entries)
      ensures holder.Some? && !holder.value.flow.Arr? ==>
        ops == [] && err == Some(CompilerError(-1, "Invalid .flow property in modifier"))
      ensures err.Some? ==> !err.value.ScriptError?
      ensures err.None? && holder.Some? ==> |ops| == |holder.value.flow.items|
      ensures holder.Some? && holder.value.flow.Arr? ==> |ops| <= |holder.value.flow.items|
      ensures forall k :: 0 <= k < |ops| ==> ops[k].id == k
      ensures holder.Some? ==> forall k :: 0 <= k < |ops| ==>
        var items := holder.value.flow.items;
        WellFormed(items[k]) &&
        (Reset(items[k], k).value.disabled <==> ops[k].DisabledOp?) &&
        (ops[k].DisabledOp? ==> Done(ops[k].passThrough) == PassThrough(Reset(items[k], k).value, |items|))
      ensures forall k :: k in old(geometry.entries) ==> k in geometry.entries && geometry.entries[k] == old(geometry.entries)[k]
      ensures holder.Some? && holder.value.flow.Arr? ==>
        var ctx := host.(boundNode := boundNode, texmaps := holder.value.texmaps);
        var st := FlowState(old(registry.inputFactories), old(registry.operatorFactories), old(geometry.entries));
        var items := holder.value.flow.items;
        (ops, err, FlowState(registry.inputFactories, registry.operatorFactories, geometry.entries)) ==
          FlowPrefix(items, |items|, st, registry.operatorParsers, ctx)
    {
      if holder.None? {
        return [], None;
      }
      var flow := holder.value.flow;
      if !flow.Arr? {
        return [], Some(CompilerError(-1, "Invalid .flow property in modifier"));
      }
      var items := flow.items;
      var ctx := host.(boundNode := boundNode, texmaps := holder.value.texmaps);
      ghost var st := FlowState(registry.inputFactories, registry.operatorFactories, geometry.entries);
      ops := [];
      var i := 0;
      while i < |items|
        invariant 0 <= i <= |items| && |ops| == i
        invariant FlowPrefix(items, i, st, registry.operatorParsers, ctx) ==
          (ops, None, FlowState(registry.inputFactories, registry.operatorFactories, geometry.entries))
      {
        var r := ParseFlowItem(items[i], i, |items|, registry, ctx);
        if r.Failed? {
          FlowPrefixStops(items, i + 1, |items|, st, registry.operatorParsers, ctx);
          FlowFacts(items, st, registry.operatorParsers, ctx);
          return ops, Some(r.error);
        }
        ops := ops + [r.value];
        i := i + 1;
      }
      FlowFacts(items, st, registry.operatorParsers, ctx);
      return ops, None;
    }
  }
}
