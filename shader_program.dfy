/**
 * ShaderProgram: loading a vertex/fragment shader pair into a linked program, and the
 * name-to-slot tables built from the program's active attributes and uniforms, so that one
 * generic draw path can serve programs that expose different uniforms.
 */
module Shaders {
  import opened Wrappers

  datatype ShaderKind = Vertex | Fragment

  /** The three checks LoadShader makes, in the order it makes them. */
  datatype Stage = VertexCompile | FragmentCompile | Link

  /** The location the GL reports for the uniform `name` of the program `program`. */
  datatype UniformLocation = UniformLocation(program: nat, name: string)

  /** The WebGL calls LoadShader makes. */
  datatype ShaderCall =
    | CreateShader(kind: ShaderKind)
    | ShaderSource(kind: ShaderKind, source: string)
    | CompileShader(kind: ShaderKind)
    | DeleteShader(kind: ShaderKind)
    | CreateProgram
    | AttachShader(kind: ShaderKind)
    | LinkProgram
    | DeleteProgram

  /** The table the constructor's loop builds: one entry per non-null active name, a later
      entry with the same name replacing an earlier one. */
  function Table<L>(active: seq<Option<string>>, location: string -> L): map<string, L>
    decreases |active|
  {
    if active == [] then map[]
    else
      var m := Table(active[..|active| - 1], location);
      match active[|active| - 1]
      case None => m
      case Some(name) => m[name := location(name)]
  }

  /** The keys of the table are exactly the active names, each mapped to its own location. */
  lemma {:induction false} TableKeys<L>(active: seq<Option<string>>, location: string -> L)
    ensures forall name :: name in Table(active, location) <==> Some(name) in active
    ensures forall name :: name in Table(active, location) ==> Table(active, location)[name] == location(name)
    decreases |active|
  {
    if active != [] {
      var init := active[..|active| - 1];
      TableKeys(init, location);
      assert active == init + [active[|active| - 1]];
    }
  }

  function UniformLocator(program: nat): string -> UniformLocation
  {
    name => UniformLocation(program, name)
  }

  /** The slot a program gives a uniform name: absent exactly when the name is not among the
      program's active uniforms, and otherwise that uniform's own location. */
  function SlotOf(activeUniforms: seq<Option<string>>, program: nat, name: string): (r: Option<UniformLocation>)
    ensures r.None? <==> Some(name) !in activeUniforms
    ensures r.Some? ==> r.value == UniformLocation(program, name)
  {
    TableKeys(activeUniforms, UniformLocator(program));
    Get(Table(activeUniforms, UniformLocator(program)), name)
  }

  /** The check that fails first, if any: vertex compile, then fragment compile, then link. */
  function FirstFailure(vertexCompiles: bool, fragmentCompiles: bool, links: bool): (r: Option<Stage>)
    ensures r.None? <==> vertexCompiles && fragmentCompiles && links
    ensures r == Some(VertexCompile) <==> !vertexCompiles
    ensures r == Some(FragmentCompile) <==> vertexCompiles && !fragmentCompiles
    ensures r == Some(Link) <==> vertexCompiles && fragmentCompiles && !links
  {
    if !vertexCompiles then Some(VertexCompile)
    else if !fragmentCompiles then Some(FragmentCompile)
    else if !links then Some(Link)
    else None
  }

  /** The WebGL calls LoadShader makes for the given check outcomes. The vertex stage always
      runs first; the fragment stage runs only once the vertex shader compiled, and the link only
      once both did. A failed fragment compile deletes the fragment shader alone (the vertex
      shader is left allocated); a failed link deletes the program and both shaders. */
  function LoadCalls(vsource: string, psource: string,
                     vertexCompiles: bool, fragmentCompiles: bool, links: bool): (calls: seq<ShaderCall>)
    ensures |calls| >= 3 && calls[..3] == [CreateShader(Vertex), ShaderSource(Vertex, vsource), CompileShader(Vertex)]
    ensures CompileShader(Fragment) in calls <==> vertexCompiles
    ensures ShaderSource(Fragment, psource) in calls <==> vertexCompiles
    ensures LinkProgram in calls <==> vertexCompiles && fragmentCompiles
    ensures DeleteShader(Vertex) in calls <==> !vertexCompiles || (fragmentCompiles && !links)
    ensures DeleteShader(Fragment) in calls <==> vertexCompiles && (!fragmentCompiles || !links)
    ensures DeleteProgram in calls <==> vertexCompiles && fragmentCompiles && !links
    ensures FirstFailure(vertexCompiles, fragmentCompiles, links).Some? <==> calls[|calls| - 1].DeleteShader?
    ensures FirstFailure(vertexCompiles, fragmentCompiles, links).None? <==>
              forall c :: c in calls ==> !c.DeleteShader? && !c.DeleteProgram?
  {
    var vertexStage := [CreateShader(Vertex), ShaderSource(Vertex, vsource), CompileShader(Vertex)];
    var fragmentStage := [CreateShader(Fragment), ShaderSource(Fragment, psource), CompileShader(Fragment)];
    var linkStage := [CreateProgram, AttachShader(Vertex), AttachShader(Fragment), LinkProgram];
    if !vertexCompiles then
      vertexStage + [DeleteShader(Vertex)]
    else if !fragmentCompiles then
      vertexStage + fragmentStage + [DeleteShader(Fragment)]
    else if !links then
      vertexStage + fragmentStage + linkStage + [DeleteProgram, DeleteShader(Vertex), DeleteShader(Fragment)]
    else
      vertexStage + fragmentStage + linkStage
  }

  class ShaderProgram {
    const program: nat

    var attributes: map<string, int>
    var uniforms: map<string, UniformLocation>

    var attrPosition: Option<int>
    var attrUV: Option<int>

    var unifColor: Option<UniformLocation>
    var unifSampler0: Option<UniformLocation>
    var unifSampler1: Option<UniformLocation>
    var unifSampler2: Option<UniformLocation>
    var unifDeltaTime: Option<UniformLocation>
    var unifAlpha: Option<UniformLocation>
    var unifBeta: Option<UniformLocation>

    /** Introspects a linked program: `activeAttributes` and `activeUniforms` are what
        getActiveAttrib and getActiveUniform report for each index (None for a null info),
        `attribLocation` is what getAttribLocation reports for a name. */
    constructor (program: nat, activeAttributes: seq<Option<string>>, attribLocation: string -> int,
                 activeUniforms: seq<Option<string>>)
      ensures this.program == program
      ensures attributes == Table(activeAttributes, attribLocation)
      ensures uniforms == Table(activeUniforms, UniformLocator(program))
      ensures forall name :: name in uniforms <==> Some(name) in activeUniforms
      ensures attrPosition == Get(attributes, "aPosition") && attrUV == Get(attributes, "aUV")
      ensures unifColor == SlotOf(activeUniforms, program, "uColor")
      ensures unifSampler0 == SlotOf(activeUniforms, program, "uSampler")
      ensures unifSampler1 == SlotOf(activeUniforms, program, "uSampler1")
      ensures unifSampler2 == SlotOf(activeUniforms, program, "uSampler2")
      ensures unifDeltaTime == SlotOf(activeUniforms, program, "uDeltaTime")
      ensures unifAlpha == SlotOf(activeUniforms, program, "uAlpha")
      ensures unifBeta == SlotOf(activeUniforms, program, "uBeta")
    {
      this.program := program;

      var attrs: map<string, int> := map[];
      for i := 0 to |activeAttributes|
        invariant attrs == Table(activeAttributes[..i], attribLocation)
      {
        assert activeAttributes[..i + 1][..i] == activeAttributes[..i];
        var info := activeAttributes[i];
        if info.None? {
          continue;
        }
        attrs := attrs[info.value := attribLocation(info.value)];
      }
      assert activeAttributes[..|activeAttributes|] == activeAttributes;

      var unifs: map<string, UniformLocation> := map[];
      for i := 0 to |activeUniforms|
        invariant unifs == Table(activeUniforms[..i], UniformLocator(program))
      {
        assert activeUniforms[..i + 1][..i] == activeUniforms[..i];
        var info := activeUniforms[i];
        if info.None? {
          continue;
        }
        unifs := unifs[info.value := UniformLocation(program, info.value)];
      }
      assert activeUniforms[..|activeUniforms|] == activeUniforms;
      TableKeys(activeUniforms, UniformLocator(program));

      attributes := attrs;
      uniforms := unifs;

      attrPosition := Get(attrs, "aPosition");
      attrUV := Get(attrs, "aUV");

      unifColor := Get(unifs, "uColor");
      unifSampler0 := Get(unifs, "uSampler");
      unifSampler1 := Get(unifs, "uSampler1");
      unifSampler2 := Get(unifs, "uSampler2");
      unifDeltaTime := Get(unifs, "uDeltaTime");
      unifAlpha := Get(unifs, "uAlpha");
      unifBeta := Get(unifs, "uBeta");
    }

    /** Compiles the vertex shader, then the fragment shader, then links, giving up with a
        diagnostic and a null program at the first check that fails. The outcome of each check
        is a parameter; `handle` is the program object createProgram returns. */
    static method LoadShader(vsource: string, psource: string,
                             vertexCompiles: bool, fragmentCompiles: bool, links: bool,
                             handle: nat, activeAttributes: seq<Option<string>>, attribLocation: string -> int,
                             activeUniforms: seq<Option<string>>)
      returns (p: ShaderProgram?, calls: seq<ShaderCall>, error: Option<Stage>)
      ensures error == FirstFailure(vertexCompiles, fragmentCompiles, links)
      ensures p == null <==> error.Some?
      ensures calls == LoadCalls(vsource, psource, vertexCompiles, fragmentCompiles, links)
      ensures p != null ==> fresh(p) && p.program == handle
      ensures p != null ==> forall name :: name in p.uniforms <==> Some(name) in activeUniforms
      ensures p != null ==> p.uniforms == Table(activeUniforms, UniformLocator(handle))
      ensures p != null ==> p.attributes == Table(activeAttributes, attribLocation)
      ensures p != null ==> p.attrPosition == Get(p.attributes, "aPosition") && p.attrUV == Get(p.attributes, "aUV")
      ensures p != null ==> p.unifColor == SlotOf(activeUniforms, handle, "uColor")
      ensures p != null ==> p.unifSampler0 == SlotOf(activeUniforms, handle, "uSampler")
      ensures p != null ==> p.unifSampler1 == SlotOf(activeUniforms, handle, "uSampler1")
      ensures p != null ==> p.unifSampler2 == SlotOf(activeUniforms, handle, "uSampler2")
      ensures p != null ==> p.unifDeltaTime == SlotOf(activeUniforms, handle, "uDeltaTime")
      ensures p != null ==> p.unifAlpha == SlotOf(activeUniforms, handle, "uAlpha")
      ensures p != null ==> p.unifBeta == SlotOf(activeUniforms, handle, "uBeta")
    {
      calls := [CreateShader(Vertex), ShaderSource(Vertex, vsource), CompileShader(Vertex)];
      if !vertexCompiles {
        error := Some(VertexCompile);
        calls := calls + [DeleteShader(Vertex)];
        return null, calls, error;
      }

      calls := calls + [CreateShader(Fragment), ShaderSource(Fragment, psource), CompileShader(Fragment)];
      if !fragmentCompiles {
        error := Some(FragmentCompile);
        calls := calls + [DeleteShader(Fragment)];
        return null, calls, error;
      }

      calls := calls + [CreateProgram, AttachShader(Vertex), AttachShader(Fragment), LinkProgram];
      if !links {
        error := Some(Link);
        calls := calls + [DeleteProgram, DeleteShader(Vertex), DeleteShader(Fragment)];
        return null, calls, error;
      }

      p := new ShaderProgram(handle, activeAttributes, attribLocation, activeUniforms);
      error := None;
    }
  }
}
