# BALLS core: mesh generators, uniform reconciliation, GLSL line styling

This project models three parts of BALLS, a live GLSL shader editor.

- **Mesh generators.** These are the `MeshFunction`s `empty`, `quad`, `box`, `tetrahedron`, `icosahedron`, `cylinder`, `cone`, `uvsphere` and `torus`.
  - Each reads named parameters and builds an indexed triangle mesh. It does this through `add_vertex`, which returns the new vertex's index, and `add_face`, which appends three indices.
  - Each generator is a method that builds a `Mesh` through `AddVertex` and `AddFace`. `Mesh` is a class holding two growing sequences, one of vertices and one of indices. Each generator method is proved to build exactly the mesh a pure function of its parameters describes.
  - Lemmas about those functions give the exact vertex and face counts. They also prove that every index names a vertex of the finished mesh.
  - The seam arithmetic of the cylinder and the cone is proved: at the last sample, "next" wraps to ring slot 0.
  - For the icosahedron, each subdivision round turns every face into four. Each child keeps its parent's corner, and `makeMidpoint` never reuses a vertex. After `n` rounds the mesh therefore has `20·4ⁿ` faces and `12 + 20·(4ⁿ − 1)` vertices.
  - For the sphere and the torus, every face lies inside its own cell of four fresh vertices.
- **Uniform reconciliation** (`Uniforms::receiveUniforms` and its three handlers). The old and new uniform declarations split into discarded, added and kept uniforms. A name→value store of dynamic properties is updated to match. Built-in properties are never written.
  - The store after the call is proved equal to a pure description, name by name.
  - The class invariant is proved preserved: the store holds exactly the custom uniforms, each with a value of its declared type.
- **GLSL lexer** (`QSciGlslLexer`).
  - `lexer()` maps each shader stage to its name.
  - The style getters ignore their argument.
  - `styleText` splits the fetched text on `'\n'` and styles every line by its prefix. The styling runs are proved to be the lines and the newline separators, in order and contiguous from `start`. Their lengths are proved to add up to the length of the text.

Floats are modelled as reals. `qFastSin`, `qFastCos`, `sqrt` and `glm::normalize` are the uninterpreted fields of a `MathLib` value that is passed in.

## Model

| member | source | states |
|---|---|---|
| Meshes.Mesh.constructor | BALLS/BALLS/mesh/MeshFunction.cpp:44 | a new mesh has no vertices and no indices |
| Meshes.Mesh.AddVertex | BALLS/BALLS/mesh/MeshFunction.cpp:202-203 | `add_vertex` returns the vertex count before the call, then appends the vertex; indices are unchanged |
| Meshes.Mesh.AddFace | BALLS/BALLS/mesh/MeshFunction.cpp:218-221 | `add_face` appends its three indices unchecked; vertices are unchanged |
| Meshes.Mesh.AddFaces | BALLS/BALLS/mesh/MeshFunction.cpp:51 | `add_faces` appends the flattening of the triangle list |
| Meshes.Flatten | BALLS/BALLS/mesh/MeshFunction.cpp:181-183 | the index list from adding triangles in order has three indices per triangle |
| Meshes.FlattenSnoc | BALLS/BALLS/mesh/MeshFunction.cpp:182 | adding one more triangle appends exactly its three corners |
| Meshes.FlattenTake | BALLS/BALLS/mesh/MeshFunction.cpp:181-183 | after `k + 1` triangles of a list, the index list is the one after `k` plus triangle `k`'s corners |
| Meshes.FlattenAppend | BALLS/BALLS/mesh/MeshFunction.cpp:181-183 | flattening distributes over concatenation of triangle lists |
| Meshes.FlattenAt | BALLS/BALLS/mesh/MeshFunction.cpp:182 | corner `a`, `b`, `c` of triangle `j` lands at index `3j`, `3j+1`, `3j+2` |
| Meshes.FlattenBelow | BALLS/BALLS/mesh/MeshFunction.cpp:185 | all triangle corners are below `n` if and only if all flattened indices are below `n` |
| Meshes.FacesBelowAppend | BALLS/BALLS/mesh/MeshFunction.cpp:181-183 | two triangle lists over `n` vertices concatenate to one over `n` vertices |
| Meshes.FacesBelowMore | BALLS/BALLS/mesh/MeshFunction.cpp:181-183 | triangles over `n` vertices stay valid once more vertices exist |
| Meshes.FlattenWellFormed | BALLS/BALLS/mesh/MeshFunction.cpp:185 | triangles over the vertices flatten to whole triangles (length divisible by 3) whose indices all name vertices |
| Solids.Empty | BALLS/BALLS/mesh/MeshFunction.cpp:38 | `empty` returns a fresh mesh with no vertices and no indices, whatever the parameters |
| Solids.QuadMesh | BALLS/BALLS/mesh/MeshFunction.cpp:40-53 | 4 vertices, 6 indices, well formed; the vertices are exactly the points (±width/2, ±length/2, 0); both triangles share the diagonal 2–0 |
| Solids.Quad | BALLS/BALLS/mesh/MeshFunction.cpp:40-53 | reading `length` and `width`, the calls build exactly `QuadMesh` |
| Solids.BoxMesh | BALLS/BALLS/mesh/MeshFunction.cpp:55-91 | 8 vertices, 36 indices, well formed; the vertices are exactly the points (±w/2, ±l/2, ±h/2); the indices are the twelve listed triangles |
| Solids.BoxFacesOnSides | BALLS/BALLS/mesh/MeshFunction.cpp:75-88 | every box triangle has its three corners in one side plane of the box |
| Solids.Box | BALLS/BALLS/mesh/MeshFunction.cpp:55-91 | reading `length`, `width` and `height`, the calls build exactly `BoxMesh` |
| Solids.TetrahedronMesh | BALLS/BALLS/mesh/MeshFunction.cpp:93-107 | 4 vertices at (±l/2, ±l/2, ±l/2) with positive coordinate product (even sign parity), distinct when l ≠ 0; 4 triangles, each over distinct corners and each leaving out exactly one vertex; well formed |
| Solids.Tetrahedron | BALLS/BALLS/mesh/MeshFunction.cpp:93-107 | reading `length`, the calls build exactly `TetrahedronMesh` |
| Icosahedra.BaseVerticesFirst | BALLS/BALLS/mesh/MeshFunction.cpp:126-131 | the table at :126-131 has six entries (the contents are the body, in source order) |
| Icosahedra.BaseVerticesLast | BALLS/BALLS/mesh/MeshFunction.cpp:132-137 | the table at :132-137 has six entries (the contents are the body, in source order) |
| Icosahedra.BaseVertices | BALLS/BALLS/mesh/MeshFunction.cpp:126-137 | the two tables together have twelve entries |
| Icosahedra.BaseFaces | BALLS/BALLS/mesh/MeshFunction.cpp:139-160 | the table at :140-159 has twenty entries (the contents are the body, in source order) |
| Icosahedra.BaseFacesShape | BALLS/BALLS/mesh/MeshFunction.cpp:139-160 | every base triangle has three distinct corners, all below 12 |
| Icosahedra.SplitVertices | BALLS/BALLS/mesh/MeshFunction.cpp:168-170 | splitting one face appends exactly three midpoint vertices |
| Icosahedra.RoundVertices | BALLS/BALLS/mesh/MeshFunction.cpp:166-176 | after `k` faces of a round, exactly `3k` vertices have been appended (no midpoint is shared) |
| Icosahedra.RoundFaces | BALLS/BALLS/mesh/MeshFunction.cpp:166-176 | after `k` faces of a round, `faces1` holds `4k` children |
| Icosahedra.Pow4 | BALLS/BALLS/mesh/MeshFunction.cpp:163 | 4ⁿ is at least 1 |
| Icosahedra.StageFaces | BALLS/BALLS/mesh/MeshFunction.cpp:163-179 | after `n` rounds there are `20·4ⁿ` faces, all below `12 + 20·(4ⁿ − 1)` |
| Icosahedra.StageVertices | BALLS/BALLS/mesh/MeshFunction.cpp:163-179 | after `n` rounds there are `12 + 20·(4ⁿ − 1)` vertices |
| Icosahedra.RoundVerticesStep | BALLS/BALLS/mesh/MeshFunction.cpp:168-170 | face `k` names existing vertices, and splitting it appends its three midpoints |
| Icosahedra.RoundFacesStep | BALLS/BALLS/mesh/MeshFunction.cpp:172-175 | face `k`'s four children are pushed after the earlier ones, over the fresh vertices `n + 3k …` |
| Icosahedra.RoundFacesBelow | BALLS/BALLS/mesh/MeshFunction.cpp:166-176 | after `k` faces, every child names a vertex below `n + 3k`; distinct corners are preserved |
| Icosahedra.ProperAppend | BALLS/BALLS/mesh/MeshFunction.cpp:172-175 | lists of proper triangles concatenate to a proper list |
| Icosahedra.RoundFacesKeepCorners | BALLS/BALLS/mesh/MeshFunction.cpp:172-175 | the first three children of face `j` start at the parent's corners `a`, `b` and `c`; the fourth is the triangle of its three fresh midpoints |
| Icosahedra.RoundKeepsVertices | BALLS/BALLS/mesh/MeshFunction.cpp:119-124 | a round only appends: the vertices before it are unchanged |
| Icosahedra.StageStep | BALLS/BALLS/mesh/MeshFunction.cpp:163-179 | round `n + 1` is one full round over the faces and vertices of round `n` |
| Icosahedra.StageProper | BALLS/BALLS/mesh/MeshFunction.cpp:163-179 | every face of every round has three distinct corners |
| Icosahedra.IcosahedronMesh | BALLS/BALLS/mesh/MeshFunction.cpp:110-187 | `20·4ⁿ` faces and `12 + 20·(4ⁿ − 1)` vertices; well formed; every face over distinct corners |
| Icosahedra.MakeMidpoint | BALLS/BALLS/mesh/MeshFunction.cpp:119-124 | `makeMidpoint` returns the old vertex count and appends the normalised midpoint of two existing vertices |
| Icosahedra.SplitFace | BALLS/BALLS/mesh/MeshFunction.cpp:166-176 | one inner-loop pass takes the round from face `j` to face `j + 1`, for both vertices and `faces1` |
| Icosahedra.AddBaseVertices | BALLS/BALLS/mesh/MeshFunction.cpp:126-137 | the twelve calls append exactly `BaseVertices` |
| Icosahedra.AddBaseVerticesFirst | BALLS/BALLS/mesh/MeshFunction.cpp:126-131 | the first six calls append exactly `BaseVerticesFirst` |
| Icosahedra.AddBaseVerticesLast | BALLS/BALLS/mesh/MeshFunction.cpp:132-137 | the last six calls append exactly `BaseVerticesLast` |
| Icosahedra.Subdivide | BALLS/BALLS/mesh/MeshFunction.cpp:164-178 | one round: the vertices become `RoundVertices`, the new face list becomes `RoundFaces` |
| Icosahedra.AddFaceList | BALLS/BALLS/mesh/MeshFunction.cpp:181-183 | the closing loop appends the flattening of the final faces |
| Icosahedra.Icosahedron | BALLS/BALLS/mesh/MeshFunction.cpp:110-187 | reading `radius` and `subdivisions ≥ 0`, the generator builds exactly `IcosahedronMesh` |
| Revolution.NextSample | BALLS/BALLS/mesh/MeshFunction.cpp:214 | the sample after `i` is a sample |
| Revolution.NextSampleMod | BALLS/BALLS/mesh/MeshFunction.cpp:214 | the sample after `i` is `(i + 1) mod r` |
| Revolution.CylinderVertices | BALLS/BALLS/mesh/MeshFunction.cpp:202-211 | after `n` iterations there are `2 + 2n` vertices |
| Revolution.CylinderFaces | BALLS/BALLS/mesh/MeshFunction.cpp:213-221 | after `n` iterations there are `4n` triangles |
| Revolution.CylinderFacesBelow | BALLS/BALLS/mesh/MeshFunction.cpp:213-221 | every corner is below `2 + 2r`, the vertex count of the finished cylinder (the forward references included) |
| Revolution.CylinderHeights | BALLS/BALLS/mesh/MeshFunction.cpp:202-211 | even-numbered vertices are at height `+h/2` and odd-numbered ones at `−h/2` |
| Revolution.CylinderMesh | BALLS/BALLS/mesh/MeshFunction.cpp:191-225 | `2 + 2r` vertices and `4r` triangles; well formed; centres at (0, ±h/2, 0); top and bottom ring vertices alternate |
| Revolution.CylinderCentres | BALLS/BALLS/mesh/MeshFunction.cpp:202-203 | vertices 0 and 1 are the top and bottom centres |
| Revolution.CylinderRingAt | BALLS/BALLS/mesh/MeshFunction.cpp:206-211 | vertices `2i + 2` and `2i + 3` are sample `i` on the top and bottom circles |
| Revolution.CylinderSegmentAt | BALLS/BALLS/mesh/MeshFunction.cpp:218-221 | triangles `4i … 4i + 3` are the four triangles of iteration `i` |
| Revolution.CylinderSeam | BALLS/BALLS/mesh/MeshFunction.cpp:213-216 | in the last iteration, `topNext` and `bottomNext` wrap to ring slot 0 (vertices 2 and 3) |
| Revolution.CylinderSlots | BALLS/BALLS/mesh/MeshFunction.cpp:213-216 | the source's `top` is `2i + 2`, and its `max(2, (top + 2) mod (2r + 2))` is the next sample's slot |
| Revolution.Cylinder | BALLS/BALLS/mesh/MeshFunction.cpp:191-225 | reading `resolution ≥ 3`, `height` and `radius`, the generator builds exactly `CylinderMesh` |
| Revolution.CylinderVerticesStep | BALLS/BALLS/mesh/MeshFunction.cpp:210-211 | iteration `i` appends its top then its bottom ring vertex |
| Revolution.CylinderIndicesStep | BALLS/BALLS/mesh/MeshFunction.cpp:213-221 | iteration `i` appends the indices of its four `add_face` calls |
| Revolution.ConeVertices | BALLS/BALLS/mesh/MeshFunction.cpp:238-246 | after `n` iterations there are `2 + n` vertices; all but the apex are at height `−h/2` |
| Revolution.ConeFaces | BALLS/BALLS/mesh/MeshFunction.cpp:248-252 | after `n` iterations there are `2n` triangles, all below `2 + r` |
| Revolution.ConeMesh | BALLS/BALLS/mesh/MeshFunction.cpp:227-256 | `2 + r` vertices and `2r` triangles; well formed; the apex (0, h/2, 0) is the only vertex off the base |
| Revolution.ConeApex | BALLS/BALLS/mesh/MeshFunction.cpp:238 | vertex 0 is the apex |
| Revolution.ConeRingAt | BALLS/BALLS/mesh/MeshFunction.cpp:241-246 | vertex `i + 2` is sample `i` on the base circle |
| Revolution.ConeSegmentAt | BALLS/BALLS/mesh/MeshFunction.cpp:251-252 | triangles `2i` and `2i + 1` are those of iteration `i` |
| Revolution.ConeSeam | BALLS/BALLS/mesh/MeshFunction.cpp:248-249 | in the last iteration, `vNext` wraps to ring slot 0 (vertex 2) |
| Revolution.ConeSlots | BALLS/BALLS/mesh/MeshFunction.cpp:248-249 | `max(2, (v + 1) mod (r + 2))` equals `((i + 1) mod r) + 2` |
| Revolution.Cone | BALLS/BALLS/mesh/MeshFunction.cpp:227-256 | reading `resolution ≥ 3`, `height` and `radius`, the generator builds exactly `ConeMesh` |
| Revolution.ConeVerticesStep | BALLS/BALLS/mesh/MeshFunction.cpp:246 | iteration `i` appends its ring vertex |
| Revolution.ConeIndicesStep | BALLS/BALLS/mesh/MeshFunction.cpp:248-252 | iteration `i` appends the indices of its two `add_face` calls |
| Grids.CellLocalAppend | BALLS/BALLS/mesh/MeshFunction.cpp:286-295 | lists of cell-local triangles concatenate to a cell-local list |
| Grids.CellsBeforeIs | BALLS/BALLS/mesh/MeshFunction.cpp:267-274 | the running cell number of cell `(t, p)` is `t·cols + p` |
| Grids.SphereCell | BALLS/BALLS/mesh/MeshFunction.cpp:281-284 | each cell adds four vertices |
| Grids.SphereCellFacesLocal | BALLS/BALLS/mesh/MeshFunction.cpp:286-295 | a cell's triangles are one in the first and last rows and two elsewhere; each is over distinct vertices of its own four |
| Grids.SphereVertices | BALLS/BALLS/mesh/MeshFunction.cpp:267-285 | four vertices per cell done |
| Grids.SphereFacesSize | BALLS/BALLS/mesh/MeshFunction.cpp:286-295 | the triangles so far are those of the rows done plus `p` cells of the current row |
| Grids.SphereFacesLocal | BALLS/BALLS/mesh/MeshFunction.cpp:286-295 | every triangle so far names vertices already added, all in its own cell |
| Grids.FacesBeforeInnerRow | BALLS/BALLS/mesh/MeshFunction.cpp:286-295 | before the last row, `t` rows hold `v + 2v(t − 1)` triangles |
| Grids.SphereFaceTotal | BALLS/BALLS/mesh/MeshFunction.cpp:267-297 | the finished sphere has `2v(u − 1)` triangles for u ≥ 2, `v` for u = 1 and none otherwise |
| Grids.SphereMesh | BALLS/BALLS/mesh/MeshFunction.cpp:258-300 | `4uv` vertices and `SphereFaceCount(u, v)` triangles; well formed; every triangle local to its cell |
| Grids.SphereVerticesStep | BALLS/BALLS/mesh/MeshFunction.cpp:281-284 | cell `(t, p)` appends its four corners |
| Grids.SphereFacesStep | BALLS/BALLS/mesh/MeshFunction.cpp:286-295 | cell `(t, p)` appends its triangles over vertices `4c …` |
| Grids.SphereCellIndices | BALLS/BALLS/mesh/MeshFunction.cpp:286-295 | the flattened indices of each row kind, as the three branches add them |
| Grids.AddSphereCell | BALLS/BALLS/mesh/MeshFunction.cpp:281-295 | the inner loop body appends the cell's four vertices and the indices of its branch |
| Grids.UVSphere | BALLS/BALLS/mesh/MeshFunction.cpp:258-300 | reading the sample counts and scales, the generator builds exactly `SphereMesh` |
| Grids.TorusCell | BALLS/BALLS/mesh/MeshFunction.cpp:310-330 | each cell adds four vertices |
| Grids.TorusCellFacesLocal | BALLS/BALLS/mesh/MeshFunction.cpp:332-333 | a cell's two triangles are over distinct vertices of its own four |
| Grids.TorusVertices | BALLS/BALLS/mesh/MeshFunction.cpp:314-330 | four vertices per cell done |
| Grids.TorusFacesLocal | BALLS/BALLS/mesh/MeshFunction.cpp:314-335 | two triangles per cell done, each naming only its own cell's vertices |
| Grids.TorusMesh | BALLS/BALLS/mesh/MeshFunction.cpp:302-338 | `4uv` vertices and `2uv` triangles; well formed; every triangle local to its cell |
| Grids.TorusVerticesStep | BALLS/BALLS/mesh/MeshFunction.cpp:327-330 | cell `(t, p)` appends its four vertices |
| Grids.TorusFacesStep | BALLS/BALLS/mesh/MeshFunction.cpp:332-333 | cell `(t, p)` appends `[b, b+1, b+2]` and `[b+2, b+3, b]` |
| Grids.AddTorusCell | BALLS/BALLS/mesh/MeshFunction.cpp:327-333 | the inner loop body appends the four vertices and two triangles |
| Grids.Torus | BALLS/BALLS/mesh/MeshFunction.cpp:302-338 | reading the radii and sample counts, the generator builds exactly `TorusMesh` |
| Generators.Generate | BALLS/BALLS/mesh/MeshFunction.hpp:30-113 | a generator yields a mesh exactly for the parameters it accepts (its keys present with the right kind; resolution ≥ 3 for the cylinder and the cone), and that mesh is well formed |
| Generators.EmptyHasNoVertices | BALLS/BALLS/mesh/MeshFunction.hpp:33-36 | `empty` accepts any parameters and returns no vertices |
| Generators.GenerateReadsItsKeys | BALLS/BALLS/mesh/MeshFunction.hpp:30 | a generator is a function of its parameters: sets that agree on its keys give the same mesh |
| Generators.Run | BALLS/BALLS/mesh/MeshFunction.hpp:30-113 | calling any generator on accepted parameters builds the mesh `Generate` names |
| UniformSync.Difference | BALLS/BALLS/ui/Uniforms.cpp:57-71 | `set_difference` keeps the declarations of the first collection whose names the second lacks |
| UniformSync.Intersection | BALLS/BALLS/ui/Uniforms.cpp:77-81 | `set_intersection` keeps the shared names, with the declarations of its first range (the new uniforms) |
| UniformSync.Partition | BALLS/BALLS/ui/Uniforms.cpp:50-83 | discarded, added and kept are pairwise disjoint; discarded ∪ kept = old; added ∪ kept = new; kept carries the new declarations |
| UniformSync.SetProperty | BALLS/BALLS/ui/Uniforms.cpp:101 | setting a valid value stores it; setting an invalid one removes the property; other names are unchanged |
| UniformSync.AfterNewStep | BALLS/BALLS/ui/Uniforms.cpp:113-136 | one more new name: custom ones get a default value of their type, built-ins are untouched |
| UniformSync.AfterKeptStep | BALLS/BALLS/ui/Uniforms.cpp:142-178 | one more kept name: already the right type or built-in, it is left alone; otherwise it is converted or default-constructed |
| UniformSync.ReconciledAt | BALLS/BALLS/ui/Uniforms.cpp:37-179 | per name: built-ins and undeclared names unchanged; discarded custom cleared; new custom default of declared type; kept custom the converted or default value |
| UniformSync.ReconciledConsistent | BALLS/BALLS/ui/Uniforms.cpp:37-179 | reconciling preserves the invariant: the store holds exactly the custom uniforms, each of its declared type |
| UniformSync.KeptSameTypeUnchanged | BALLS/BALLS/ui/Uniforms.cpp:155-159 | a kept custom uniform whose type did not change keeps its value |
| UniformSync.HandlerAssertions | BALLS/BALLS/ui/Uniforms.cpp:100-128 | the handlers' `Q_ASSERT`s hold: a discarded custom uniform was valid and is cleared; a new one was absent and becomes valid |
| UniformSync.Uniforms.constructor | BALLS/BALLS/ui/Uniforms.cpp:25-35 | a new object has no uniforms and no custom properties |
| UniformSync.Uniforms.ReceiveUniforms | BALLS/BALLS/ui/Uniforms.cpp:37-86 | the stored list becomes the argument, the property store becomes `Reconciled`, and the invariant is preserved |
| UniformSync.Uniforms.HandleDiscarded | BALLS/BALLS/ui/Uniforms.cpp:88-108 | every custom discarded uniform is cleared; built-ins are untouched |
| UniformSync.Uniforms.HandleNew | BALLS/BALLS/ui/Uniforms.cpp:110-137 | every custom new uniform gets a default value of its declared type |
| UniformSync.Uniforms.NewUniform | BALLS/BALLS/ui/Uniforms.cpp:113-136 | one loop pass adds one name to those handled |
| UniformSync.Uniforms.HandleKept | BALLS/BALLS/ui/Uniforms.cpp:139-179 | every custom kept uniform becomes `KeptValue` |
| UniformSync.Uniforms.KeptUniform | BALLS/BALLS/ui/Uniforms.cpp:142-178 | one loop pass adds one name to those handled |
| GlslLexer.LexerName | BALLS/QSciGlslLexer/QSciGlslLexer.cpp:35-59 | the name is empty exactly for values other than the six stages |
| GlslLexer.LexerNameRoundTrip | BALLS/QSciGlslLexer/QSciGlslLexer.cpp:35-59 | each stage is recovered from its name |
| GlslLexer.LexerNameInjective | BALLS/QSciGlslLexer/QSciGlslLexer.cpp:35-59 | no two stages share a name |
| GlslLexer.InitialStyles | BALLS/QSciGlslLexer/QSciGlslLexer.cpp:14-23 | every style slot holds the default style |
| GlslLexer.GettersIgnoreStyle | BALLS/QSciGlslLexer/QSciGlslLexer.cpp:89-108 | `color`, `paper`, `font`, `description` and `eolFill` give the same answer for every style: red, blue, "Monospace", "Keyword", true |
| GlslLexer.UpToNul | BALLS/QSciGlslLexer/QSciGlslLexer.cpp:113 | `QString(range)` is the longest NUL-free prefix of the buffer |
| GlslLexer.Split | BALLS/QSciGlslLexer/QSciGlslLexer.cpp:117 | `split('\n')` gives at least one line, none holding a newline |
| GlslLexer.JoinSplit | BALLS/QSciGlslLexer/QSciGlslLexer.cpp:117 | joining the lines with newlines gives the text back |
| GlslLexer.SplitJoin | BALLS/QSciGlslLexer/QSciGlslLexer.cpp:117 | splitting joined newline-free lines gives the same lines |
| GlslLexer.LineStyle | BALLS/QSciGlslLexer/QSciGlslLexer.cpp:120-128 | Macro exactly for lines starting with `#`, Comment exactly for lines starting with `//`, Default otherwise |
| GlslLexer.Emitted | BALLS/QSciGlslLexer/QSciGlslLexer.cpp:119-135 | `2k` runs for `k` lines, one fewer when all lines are done (no separator after the last) |
| GlslLexer.EmittedAt | BALLS/QSciGlslLexer/QSciGlslLexer.cpp:119-135 | run `2i` is line `i` in its style at the line's offset; run `2i + 1` is one Default character |
| GlslLexer.EmittedContiguous | BALLS/QSciGlslLexer/QSciGlslLexer.cpp:116-135 | the runs start at `start` and each begins where the previous ends |
| GlslLexer.EmittedTotal | BALLS/QSciGlslLexer/QSciGlslLexer.cpp:119-135 | the first `k` lines' runs cover those lines and their separators |
| GlslLexer.StyledLength | BALLS/QSciGlslLexer/QSciGlslLexer.cpp:117-135 | the run lengths add up to the length of the fetched text |
| GlslLexer.QSciGlslLexer.constructor | BALLS/QSciGlslLexer/QSciGlslLexer.cpp:9-25 | the stage is stored and every slot gets the default style |
| GlslLexer.QSciGlslLexer.StartStyling | BALLS/QSciGlslLexer/QSciGlslLexer.cpp:116 | the styling cursor moves to `start` |
| GlslLexer.QSciGlslLexer.SetStyling | BALLS/QSciGlslLexer/QSciGlslLexer.cpp:130-133 | one run of `length` from the cursor is recorded, and the cursor advances |
| GlslLexer.QSciGlslLexer.StyleText | BALLS/QSciGlslLexer/QSciGlslLexer.cpp:110-136 | the runs appended are exactly `Emitted` for the split text, and the cursor ends at `start` plus the text length |

## Left out

- Floating point: coordinates are reals with no rounding, and `Mul` is plain real multiplication. `float` versus `double` angle grouping is not distinguished.
- `qFastSin`, `qFastCos`, `sqrt` and `glm::normalize` are uninterpreted functions. Nothing is proved about norms, distances or angles.
- `Mesh.hpp` is not part of this model. `add_vertex` is taken to return the vertex count and then append; `add_face` appends three indices unchecked.
- `Mesh::IndexType`'s width is not modelled. Indices are unbounded naturals, so a wrap-around of `add_vertex`'s result on very large meshes is not captured. An example is the icosahedron at 6 or more subdivisions, which has more than 65535 vertices. `WellFormed` is proved for unbounded indices only.
- `MeshParameter.hpp` is not part of this model. A parameter set is a map from name to an int or a float. `at(k).get<T>()` on a missing key or a wrong kind is a precondition of each generator method, and for `Generate` it is the `None` case.
- Icosahedra.Icosahedron: `Q_ASSERT(subdivisions >= 0)` is a precondition. A negative value, which makes the source skip the loop in release builds, is not modelled.
- Revolution.Cylinder, Revolution.Cone: `Q_ASSERT(resolution >= 3)` is a precondition. Smaller resolutions are not modelled.
- The `unordered_map indices` in `icosahedron` is declared but never used. The model follows the code: midpoints are never shared.
- Which triangles share each base corner of the icosahedron is not stated.
- `pyramid`, `octahedron` and `ellipsoid` are declared in the header but not defined, so they are not modelled.
- The resolution parameter the header documents for `quad` and `box` is not read by the code and is not modelled.
- UniformSync.Uniforms.ReceiveUniforms: requires that every GL type has a known metatype (`KnownTypes`). This is what the `Q_ASSERT(property(...).isValid())` after each new uniform relies on.
- `TypeInfo.hpp` is not part of this model. A uniform collection is a map from name to GL type, with names as the ordering key.
- The handlers visit names in the set's order. The model picks them in any order; the result does not depend on it.
- The GL-type-to-metatype table, `QVariant::canConvert` and the payload `convert` produces are abstract functions.
- `indexOfProperty` is a fixed set of built-in names.
- `qCDebug` logging is left out.
- The rest of `Uniforms.cpp` (camera, projection, trackball, mouse and resize events) is left out.
- In `styleText`, the `SCI_GETTEXTRANGE` call and the buffer are left out. The fetched buffer is an input string.
- Scintilla counts bytes while `QString::size` counts UTF-16 units; every character is taken as one unit of both.
- The lexer's styling cursor and runs are fields of the lexer object.
- `lexerId`, `language`, `braceStyle`, `blockStart`, `blockEnd`, `wordCharacters` and `autoCompletionWordSeparators` are constants or return the stored type, and are left out.
- The header's style enumeration does not declare `Macro`, while the implementation uses it. Styles are abstract tags here.
