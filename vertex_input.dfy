/** Memory-type selection for buffers, and the hard-coded quad mesh. */
module VertexInput {
  import opened VkTypes

  /** `VK_MAX_MEMORY_TYPES`: the capacity of `memoryTypes`, so `memoryTypeCount <= 32`. */
  const MaxMemoryTypes: nat := 32

  datatype MemoryType = MemoryType(propertyFlags: bv32, heapIndex: uint32)

  /** `VkPhysicalDeviceMemoryProperties`: the first `memoryTypeCount` entries of
      `memoryTypes`, as a list of that length. */
  datatype MemoryProperties = MemoryProperties(memoryTypes: seq<MemoryType>)

  /** Bit `index` of `typeFilter` is set (`typeFilter & (1 << index)`). */
  predicate InTypeFilter(typeFilter: bv32, index: nat)
    requires index < 32
  {
    typeFilter & (1 << index) != 0
  }

  /** Memory type `index` passes both filters of the pipeline. */
  predicate Qualifies(typeFilter: bv32, properties: bv32, mem: MemoryProperties, index: nat)
    requires index < |mem.memoryTypes| <= MaxMemoryTypes
  {
    InTypeFilter(typeFilter, index) &&
    mem.memoryTypes[index].propertyFlags & properties == properties
  }

  /** The first qualifying index at or above `from`: the `iota | filter | filter` view, lazily. */
  function FirstQualifyingFrom(typeFilter: bv32, properties: bv32, mem: MemoryProperties, from: nat): (r: Option<nat>)
    requires from <= |mem.memoryTypes| <= MaxMemoryTypes
    ensures r.Some? ==> from <= r.value < |mem.memoryTypes| && Qualifies(typeFilter, properties, mem, r.value)
    ensures r.Some? ==> forall j :: from <= j < r.value ==> !Qualifies(typeFilter, properties, mem, j)
    ensures r.None? ==> forall j :: from <= j < |mem.memoryTypes| ==> !Qualifies(typeFilter, properties, mem, j)
    decreases |mem.memoryTypes| - from
  {
    if from == |mem.memoryTypes| then None
    else if Qualifies(typeFilter, properties, mem, from) then Some(from)
    else FirstQualifyingFrom(typeFilter, properties, mem, from + 1)
  }

  /** `find_memory_type`: the smallest memory-type index allowed by `typeFilter`
      whose property flags include all of `properties`; throws when there is none. */
  function FindMemoryType(typeFilter: bv32, properties: bv32, mem: MemoryProperties): (r: Result<nat>)
    requires |mem.memoryTypes| <= MaxMemoryTypes
    ensures r.Ok? ==> r.value < |mem.memoryTypes|
    ensures r.Ok? ==> InTypeFilter(typeFilter, r.value)
    ensures r.Ok? ==> mem.memoryTypes[r.value].propertyFlags & properties == properties
    ensures r.Ok? ==> forall j :: 0 <= j < r.value ==> !Qualifies(typeFilter, properties, mem, j)
    ensures r.Err? <==> forall j :: 0 <= j < |mem.memoryTypes| ==> !Qualifies(typeFilter, properties, mem, j)
    ensures r.Err? ==> r.error == RuntimeError("failed to find suitable memory type!")
  {
    match FirstQualifyingFrom(typeFilter, properties, mem, 0)
    case Some(i) => Ok(i)
    case None => Err(RuntimeError("failed to find suitable memory type!"))
  }

  /** A vertex: 2D position and RGB colour (the source's single-precision
      values are all exactly representable, so they are written as reals). */
  datatype Vertex = Vertex(x: real, y: real, r: real, g: real, b: real)

  /** The quad's four corners: red, green, blue and white. */
  const Vertices: seq<Vertex> := [
    Vertex(-0.5, -0.5, 1.0, 0.0, 0.0),
    Vertex(0.5, -0.5, 0.0, 1.0, 0.0),
    Vertex(0.5, 0.5, 0.0, 0.0, 1.0),
    Vertex(-0.5, 0.5, 1.0, 1.0, 1.0)]

  /** The `uint16_t` index list: two triangles sharing the diagonal 0–2. */
  const Indices: seq<nat> := [0, 1, 2, 2, 3, 0]

  /** Twice the signed area of the triangle given by three vertex indices. */
  function DoubleSignedArea(a: nat, b: nat, c: nat): real
    requires a < |Vertices| && b < |Vertices| && c < |Vertices|
  {
    (Vertices[b].x - Vertices[a].x) * (Vertices[c].y - Vertices[a].y) -
    (Vertices[c].x - Vertices[a].x) * (Vertices[b].y - Vertices[a].y)
  }

  /** The mesh is a valid triangle list: a whole number of triangles, every index
      a `uint16_t` naming one of the four vertices; both triangles have the same
      winding and together cover the unit quad. */
  lemma MeshIsTriangleList()
    ensures |Vertices| == 4 && |Indices| == 6
    ensures |Indices| % 3 == 0
    ensures forall i :: 0 <= i < |Indices| ==> Indices[i] < |Vertices| && Indices[i] < 0x1_0000
    ensures DoubleSignedArea(Indices[0], Indices[1], Indices[2]) == 1.0
    ensures DoubleSignedArea(Indices[3], Indices[4], Indices[5]) == 1.0
  {
  }
}
