# Point ordering in f3d: depth sort, Morton pre-pass and file navigation

This project models, in Dafny, three parts of f3d that decide in what order
things are presented:

- **The view-dependent depth sort** (`vtkF3DDepthSortPointCloud`). The filter
  keeps an index permutation between executions. It resets the permutation to
  the identity only when the point count changes. It sorts the permutation by
  decreasing projection of the points on the normalised camera direction, so
  the points come far to near. It gathers positions and every point-data
  array through the permutation. Its modification time follows the camera
  only when the direction moved away from the last sorted one (cosine at
  most 0.99). Module `DepthSort`, file `depth_sort.dfy`.
- **The Morton pre-pass of the Gaussian-splatting reader**
  (`vtkF3DGaussianSplattingReader`).
  - Module `Morton` (`morton.dfy`): each coordinate is scaled by 1024,
    clamped and truncated to 10 bits. The three values are interleaved into a
    30-bit code with the 32-bit multiply-and-mask trick.
  - Module `SplatReader` (`splat_reader.dfy`): the vertices are ordered by
    increasing code. Positions and the attribute arrays are written through
    that order. One vertex cell is built per point.
- **The loader's file list** (`loader_impl`). It is a duplicate-free list of
  full paths. A directory adds its entries other than "." and ".." in sorted
  order. Navigation (first, last, previous, next, current) wraps around the
  ends using C++'s truncating `%` and a fix-up. Module `FileList`, file
  `file_list.dfy`.

Module `Permutations` (`permutations.dfy`) holds what the two sorts share:
the identity ordering `Iota` that `std::iota` writes, permutations of
`[0, n)` with their basic facts, and the in-place sort of an index array by
the keys of the items it indexes, in either direction.

Where the source changes state in place, the model does too:
- the depth-sort filter and the loader are classes whose methods update
  their fields;
- the permutations are sorted in place in arrays by one shared
  insertion sort (`Permutations.SortByKey`), one admissible
  result of `std::sort`;
- float arrays are two-dimensional arrays filled by nested loops.

The bit tricks, the quantisation and the file-adding rules are functions,
with lemmas about them.

## Model

| member | source | states |
|---|---|---|
| Permutations.SortByKey | library/VTKExtensions/Readers/vtkF3DDepthSortPointCloud.cxx:98-100 | sorting the index array in place keeps its multiset of indices and leaves the keys of the indexed items in order, non-increasing for the depth sort's "greater" comparator and non-decreasing for the reader's "less" one |
| Permutations.IotaArray | library/VTKExtensions/Readers/vtkF3DDepthSortPointCloud.cxx:86-90 | a new array holding 0, 1, ..., n-1, as `std::iota` fills it |
| DepthSort.DepthSortPointCloud.constructor | library/VTKExtensions/Readers/vtkF3DDepthSortPointCloud.cxx:36-40 | no camera, last direction (0, 0, 0), empty permutation, empty kept output |
| DepthSort.DepthSortPointCloud.SetCamera | library/VTKExtensions/Readers/vtkF3DDepthSortPointCloud.cxx:34 | the camera is set; the filter is marked modified, at a time newer than the camera's, only when handed a different camera object (identity, not state, as the pointer comparison does); a moved camera handed over again leaves the time unchanged; right after a new camera the filter is up to date |
| DepthSort.DepthSortPointCloud.GetMTime | library/VTKExtensions/Readers/vtkF3DDepthSortPointCloud.cxx:148-168 | the time differs from the filter's own exactly when a camera newer than the filter has a direction with cosine at most 0.99 to the last sorted one; it is then the camera's time |
| DepthSort.DepthSortPointCloud.FirstCheckFollowsCamera | library/VTKExtensions/Readers/vtkF3DDepthSortPointCloud.cxx:152-164 | before any sort the last direction is zero, so a newer camera always makes the filter out of date |
| DepthSort.DepthSortPointCloud.SortedDirectionIsCurrent | library/VTKExtensions/Readers/vtkF3DDepthSortPointCloud.cxx:158-162 | once sorted for the camera's unit direction, the filter reports its own time whatever the camera's |
| DepthSort.DepthSortPointCloud.ResetMapping | library/VTKExtensions/Readers/vtkF3DDepthSortPointCloud.cxx:86-90 | the permutation keeps its array and order when the point count is unchanged; otherwise it is a new identity of the new size; it stays a permutation |
| DepthSort.DepthSortPointCloud.SortMapping | library/VTKExtensions/Readers/vtkF3DDepthSortPointCloud.cxx:98-100 | the permutation stays a permutation with the same indices and becomes depth-ordered for the direction |
| DepthSort.DepthSortPointCloud.RequestData | library/VTKExtensions/Readers/vtkF3DDepthSortPointCloud.cxx:63-146 | the last direction is the camera's; the permutation is kept or reset and then depth-ordered; output point i is input point mapping[i]; the kept point data is the old one with every gathered input array added in order; the output is the kept poly data |
| DepthSort.GatherPoints | library/VTKExtensions/Readers/vtkF3DDepthSortPointCloud.cxx:104-111 | one output point per input point, output point i being input point mapping[i] |
| DepthSort.GatherArray | library/VTKExtensions/Readers/vtkF3DDepthSortPointCloud.cxx:124-133 | the copy keeps name, component count and tuple count; tuple j is source tuple mapping[j] |
| DepthSort.GatherPointData | library/VTKExtensions/Readers/vtkF3DDepthSortPointCloud.cxx:119-137 | the resulting point data is the destination with each gathered source array added in turn |
| DepthSort.FindArray | library/VTKExtensions/Readers/vtkF3DDepthSortPointCloud.cxx:135 | the index found is the first array carrying the name, or -1 when none does |
| DepthSort.AddArray | library/VTKExtensions/Readers/vtkF3DDepthSortPointCloud.cxx:135 | the added array is present afterwards; either it is appended (always when it has no name) or the length is kept and only an array of the same name was replaced by it |
| DepthSort.LookupAddArray | library/VTKExtensions/Readers/vtkF3DDepthSortPointCloud.cxx:135 | after adding an array, its name finds it, and every other name finds what it found before |
| DepthSort.LookupAddArrays | library/VTKExtensions/Readers/vtkF3DDepthSortPointCloud.cxx:122-137 | after adding arrays with distinct names, each is found under its name; other names keep their lookup |
| DepthSort.ReorderedPermutes | library/VTKExtensions/Readers/vtkF3DDepthSortPointCloud.cxx:130-133 | reading a sequence through a permutation keeps its multiset of elements |
| DepthSort.PointDataAfterExecution | library/VTKExtensions/Readers/vtkF3DDepthSortPointCloud.cxx:119-137 | after an execution each input array is found under its name, gathered, with the same tuples reordered; a name no input array carries keeps its lookup, so arrays of earlier executions persist |
| DepthSort.OutputBackToFront | library/VTKExtensions/Readers/vtkF3DDepthSortPointCloud.cxx:98-117 | output positions have non-increasing projection on the direction and are the input positions, each once |
| Morton.ExpandBitsSpreads | plugins/gasp/module/vtkF3DGaussianSplattingReader.cxx:62-68 | for a 10-bit input the multiply-and-mask steps equal the reference spreading, set nothing outside bits 3k, and compacting returns the input |
| Morton.ExpandBitsAt | plugins/gasp/module/vtkF3DGaussianSplattingReader.cxx:62-68 | bit k of the input is bit 3k of the expansion |
| Morton.ExpandBits | plugins/gasp/module/vtkF3DGaussianSplattingReader.cxx:62-68 | for a 10-bit input the four wrapping multiply-and-mask steps give the reference spreading `Spread`, bit k moved to bit 3k |
| Morton.QuantizeInt | plugins/gasp/module/vtkF3DGaussianSplattingReader.cxx:70-73 | the quantised coordinate lies in [0, 1023] |
| Morton.QuantizeClamps | plugins/gasp/module/vtkF3DGaussianSplattingReader.cxx:70-72 | non-positive inputs give 0, inputs of at least 1023/1024 give 1023, inputs in [0, 1) give the floor of x * 1024 |
| Morton.Quantize | plugins/gasp/module/vtkF3DGaussianSplattingReader.cxx:73-75 | the `(unsigned int)` cast of the clamped coordinate is below 1024, a 10-bit value |
| Morton.Interleave | plugins/gasp/module/vtkF3DGaussianSplattingReader.cxx:76 | for 10-bit inputs, `xx * 4 + yy * 2 + zz` is the bitwise union of x's spread bits shifted up by 2, y's by 1 and z's in place |
| Morton.Morton3D | plugins/gasp/module/vtkF3DGaussianSplattingReader.cxx:61-77 | every code is below 2^30 |
| Morton.MortonBounded | plugins/gasp/module/vtkF3DGaussianSplattingReader.cxx:76 | xx * 4 + yy * 2 + zz is the bitwise union of the shifted spreadings and is below 2^30 |
| Morton.MortonLayout | plugins/gasp/module/vtkF3DGaussianSplattingReader.cxx:73-76 | masked to bits 3k, the code shifted right by 2, by 1 and by 0 gives the spreadings of x, y and z: x bit k sits at 3k+2, y bit k at 3k+1, z bit k at 3k |
| Morton.DeinterleaveInterleave | plugins/gasp/module/vtkF3DGaussianSplattingReader.cxx:73-76 | decoding a code returns the three quantised coordinates |
| Morton.MortonSameCode | plugins/gasp/module/vtkF3DGaussianSplattingReader.cxx:70-76 | two points share a code exactly when their quantised coordinates agree |
| Morton.MortonStepX | plugins/gasp/module/vtkF3DGaussianSplattingReader.cxx:76 | setting the lowest bit of an even quantised x raises the code by exactly 4 |
| Morton.MortonStepY | plugins/gasp/module/vtkF3DGaussianSplattingReader.cxx:76 | setting the lowest bit of an even quantised y raises the code by exactly 2 |
| Morton.MortonStepZ | plugins/gasp/module/vtkF3DGaussianSplattingReader.cxx:76 | setting the lowest bit of an even quantised z raises the code by exactly 1 |
| Morton.ComputeMortonCodes | plugins/gasp/module/vtkF3DGaussianSplattingReader.cxx:56-85 | one code per point, code j being the code of point j alone |
| SplatReader.ConvertToFloatArray | plugins/gasp/module/vtkF3DGaussianSplattingReader.cxx:19-54 | null exactly when there is no component vector or their lengths differ; otherwise a new array with the name, one component per vector, one tuple per value, and tuple mapping[j] component i equal to func(components[i][j]) |
| SplatReader.EveryTupleWrittenOnce | plugins/gasp/module/vtkF3DGaussianSplattingReader.cxx:45-51 | through a permutation, every component of every tuple holds the transformed value of the one and only vertex the permutation sends to that tuple |
| SplatReader.MortonOrder | plugins/gasp/module/vtkF3DGaussianSplattingReader.cxx:127-132 | the order is a permutation of the vertices along which codes never decrease |
| SplatReader.BuildVerts | plugins/gasp/module/vtkF3DGaussianSplattingReader.cxx:155-165 | offsets are 0..n and connectivity is 0..n-1 |
| SplatReader.VertsAreSinglePoints | plugins/gasp/module/vtkF3DGaussianSplattingReader.cxx:155-170 | cell k of the vertex topology holds exactly point k |
| SplatReader.ShDcToColor | plugins/gasp/module/vtkF3DGaussianSplattingReader.cxx:143-145 | every colour channel lies in [0, 1] |
| SplatReader.RequestData | plugins/gasp/module/vtkF3DGaussianSplattingReader.cxx:101-173 | the order is a Morton-ordered permutation; points, colour, opacity, scale and rotation arrays carry their names and are all written through that same order, so a vertex's attributes land in its position's tuple; one vertex cell per point |
| SplatReader.MortonOrderOfThree | plugins/gasp/module/vtkF3DGaussianSplattingReader.cxx:127-132 | with codes 2, 0, 1 the only Morton order is 1, 2, 0 |
| SplatReader.ScatterLeavesMortonOrder | plugins/gasp/module/vtkF3DGaussianSplattingReader.cxx:45-51 | scattering the positions (0, 1/1024, 0), (0, 0, 0), (0, 0, 1/1024), with codes 2, 0, 1, through their Morton order stores in tuple 1 a position with a larger code than the one in tuple 2 |
| SplatReader.GatherToFloatArray | plugins/gasp/module/vtkF3DGaussianSplattingReader.cxx:19-54 | the same validation and null results as the conversion, but tuple k component i equals func(components[i][mapping[k]]) |
| SplatReader.GatherFollowsMortonOrder | plugins/gasp/module/vtkF3DGaussianSplattingReader.cxx:125-141 | positions gathered through the Morton order are stored by non-decreasing Morton code |
| FileList.InsertSorted | library/src/loader_impl.cxx:206 | inserting into a strictly increasing sequence keeps it strictly increasing and adds exactly the new element |
| FileList.SortEntries | library/src/loader_impl.cxx:198-208 | the collected set is the one `SortedNames` describes |
| FileList.SortedNamesElements | library/src/loader_impl.cxx:201-208 | the set holds exactly the listing's entries other than "." and ".." |
| FileList.ListingOrderIrrelevant | library/src/loader_impl.cxx:198-212 | listings with the same entries give the same visiting order, whatever order the file system lists them in |
| FileList.AddEntriesFacts | library/src/loader_impl.cxx:209-212 | adding entries keeps the list duplicate-free with its old entries as a prefix; what is added is exactly the collapsed paths of existing non-directory entries |
| FileList.AddFileFacts | library/src/loader_impl.cxx:178-225 | adding keeps the list duplicate-free with old entries in place; empty or missing paths change nothing; a file is appended unless listed; a directory contributes its addable entries only when recursive |
| FileList.AddFileSpec | library/src/loader_impl.cxx:178-225 | adding a path keeps the old list as a prefix, and everything it appends exists and is no directory |
| FileList.AddAll | library/src/loader_impl.cxx:169-175 | adding the paths one after the other keeps the old list as a prefix and appends only existing files |
| FileList.Loader.constructor | library/src/loader_impl.cxx:148-149 | the list starts empty with current index 0 |
| FileList.Loader.AddFile | library/src/loader_impl.cxx:178-225 | the new list is what `AddFileSpec` gives for the old list, and stays duplicate-free |
| FileList.Loader.AddFiles | library/src/loader_impl.cxx:169-175 | each path is added in turn, recursively, and the list stays duplicate-free |
| FileList.Loader.GetFiles | library/src/loader_impl.cxx:269-272 | returns the list as kept |
| FileList.TruncatedRemainder | library/src/loader_impl.cxx:255 | the C++ remainder lies strictly between -size and size and has the sign of the dividend |
| FileList.Wrap | library/src/loader_impl.cxx:255-256 | remainder plus fix-up lies in [0, size) |
| FileList.WrapIsEuclidean | library/src/loader_impl.cxx:255-256 | remainder plus fix-up equals the mathematical (never negative) remainder |
| FileList.AddToIndex | library/src/loader_impl.cxx:234-252 | the switch steps by -1 exactly for previous, by 1 exactly for next, and by 0 for first, last and current |
| FileList.AsWrittenIndex | library/src/loader_impl.cxx:234-256 | with an index variable of the caller's own, the index is in [0, size); first and last give what current gives, the other cases give the intended index |
| FileList.AliasedIndex | library/src/loader_impl.cxx:234-256 | with the current index itself as the out-parameter, the index is in [0, size), first gives 0, and previous, current and next agree with the non-aliased call |
| FileList.IntendedIndex | library/src/loader_impl.cxx:235-256 | first gives 0, last gives size-1, current, next and previous give current, current+1 and current-1 modulo size |
| FileList.AliasedIsIntended | library/src/loader_impl.cxx:235-256 | with the index out-parameter being the current index, as loadFile passes it, the computed index is the intended one |
| FileList.FirstIgnoredWithoutAlias | library/src/loader_impl.cxx:237-256 | with an index variable of the caller's own, "first" from file 1 of 2 yields 1, not 0 |
| FileList.NavigationWraps | library/src/loader_impl.cxx:243-256 | next from the last file gives the first; previous from the first gives the last |
| FileList.DecimalString | library/src/loader_impl.cxx:259 | `std::to_string` of a natural number is a non-empty string of decimal digits, with no leading zero except for 0 itself |
| FileList.DecimalStringValue | library/src/loader_impl.cxx:259 | reading the decimal string back as digits gives the number |
| FileList.FileInfoText | library/src/loader_impl.cxx:259-260 | the text starts with "(" and the decimal 1-based index, and ends with the file name |
| FileList.Loader.GetFileInfo | library/src/loader_impl.cxx:228-266 | on an empty list the index is -1 and the strings unchanged; otherwise the index as written, the path at it, and "(index+1/size) name" |
| FileList.Loader.LoadFileInfo | library/src/loader_impl.cxx:228-266 | called as loadFile calls it (line 297), the current index moves to the intended index, with its path and information text; on an empty list it becomes -1 and the path stays empty |
| FileList.Loader.SetCurrentFileIndex | library/src/loader_impl.cxx:275-278 | the current index becomes the given one |
| FileList.Loader.GetCurrentFileIndex | library/src/loader_impl.cxx:281-284 | returns the current index |
| FileList.SetThenGet | library/src/loader_impl.cxx:275-284 | setting the current index and reading it back returns the index set |

## Left out

- Floating point. Coordinates, projections and tuples are reals, and NaN is not modelled. Unit direction: `vtkMath::Normalize` in `ComputeProjectionVector` is taken as already applied. The camera is the identity of the camera object, its normalised direction and its modification time. The global modification clock is the `stamp` argument of `SetCamera`. It is required to be newer than the filter's time and the new camera's time, and is not compared with the time of the camera it replaces.
- Morton.QuantizeInt: the single-precision `x * 1024.0f` and the float-to-unsigned cast are modelled as exact real arithmetic followed by the floor.
- `std::sort` is not stable and its exact output order is unspecified. Both sorts are modelled by insertion sort, one admissible result. The contracts state only what any correct sort guarantees: the same indices, in key order.
- The per-value transforms sigmoid and exp are given functions (parameters of `SplatReader.RequestData`). The spherical-harmonic clamp is modelled on reals.
- PLY parsing through happly is not modelled. The reader starts from the fourteen columns, which are required to have equal lengths (`WellFormed`). The source does not check this. With unequal columns, `ComputeMortonCodes` reads `y` and `z` past their end when they are shorter than `x`. `ConvertToFloatArray` returns null, which the reader hands on to VTK unchecked, only when the columns of a single call disagree. When all columns of one call agree but differ from `x`, no call returns null: for a group shorter than `x`, line 49 writes tuple `mapping[j]`, which can lie past the end of the array; for a group longer than `x`, line 49 reads `mapping[j]` past the end of the mapping.
- SplatReader.RequestData: the output is built fresh. The data types of the VTK arrays (float, `vtkIdType`) are not modelled.
- DepthSort.DepthSortPointCloud.RequestData requires every input point-data array to have one tuple per point. The source copies tuples `Mapping[j]` for `j < nbPoints` without checking the array's length, and it does not drop mismatched arrays.
- DepthSort.DepthSortPointCloud.RequestData requires a camera. The source dereferences a missing camera.
- DepthSort.DepthSortPointCloud.RequestData does not build cells: the source sets only points and point data on the kept poly data.
- DepthSort.DepthSortPointCloud.RequestData: `SetActiveScalars` (line 139) is not modelled. It would dereference null when the input has no scalars.
- DepthSort.DepthSortPointCloud.RequestData: `std::cout` tracing, `PrintSelf` and reference counting are not modelled. The final `ShallowCopy` is modelled as the output being equal to the kept poly data.
- Point-data arrays are modelled through `vtkFieldData::AddArray`: an array with the name of an existing array replaces the first such array; otherwise, or when unnamed, it is appended. vtkFieldData is not part of this model; this behaviour is taken from VTK.
- The file system is a parameter (`FileSystem`): path collapsing, existence, the directory test, directory listings, `JoinPath` (with its empty first part) and `GetFilenameName`. Logging of missing files is not modelled.
- `std::set<std::string>` order is lexicographic on characters compared by code.
- FileList.Loader.AddFiles calls `addFile(file)` with the default second argument. That default is declared in the loader header, which is not part of this model; it is taken to be `recursive = true`.
- FileList.Loader.GetFileInfo and FileList.Loader.LoadFileInfo require the list size to fit an `int` (the `static_cast<int>`) and `current + addToIndex` not to overflow an `int`. Both are undefined or unintended behaviour in the source.
- `loadFile` itself, importer selection, the progress bar and the window are not modelled. Neither is the `LoadedFile` flag: `LoadFileInfo` returns the empty path on which `loadFile` gives up.
- Concurrency: none in the modelled code.

## Findings

| source | as written | input that shows it | evidently intended | confidence | as-written member | corrected member |
|---|---|---|---|---|---|---|
| library/src/loader_impl.cxx:237-256 | "first" and "last" write `nextFileIndex`, which line 255 then overwrites from `CurrentFileIndex`; they work only when the caller passes `CurrentFileIndex` itself as `nextFileIndex` | `getFileInfo(LOAD_FIRST, i, ...)` with a separate `i`, current index 1, two files: `i` becomes 1 | "first" gives 0 and "last" gives size-1 for any caller | medium, not executed | FileList.FirstIgnoredWithoutAlias | FileList.IntendedIndex |
| plugins/gasp/module/vtkF3DGaussianSplattingReader.cxx:45-51 | `ConvertToFloatArray` writes vertex `j` to tuple `mapping[j]`, where `mapping[k]` is the vertex with the k-th smallest code; this stores the vertices in the inverse order | three vertices at (0, 1/1024, 0), (0, 0, 0), (0, 0, 1/1024), with codes 2, 0, 1: the order is 1, 2, 0 and tuples 0, 1, 2 hold positions with codes 1, 2, 0 | tuple `k` receives vertex `mapping[k]`, so the arrays are stored by increasing Morton code | medium, not executed | SplatReader.ScatterLeavesMortonOrder | SplatReader.GatherFollowsMortonOrder |

The first row's corrected behaviour is the one `loadFile` gets. `FileList.Loader.LoadFileInfo` is proved to move to `FileList.IntendedIndex` (via `FileList.AliasedIsIntended`). `FileList.Loader.GetFileInfo` models a caller with its own index variable, as written.

For the second row:
- `SplatReader.RequestData` and `SplatReader.ConvertToFloatArray` model the code as written. `SplatReader.MortonOrderOfThree` shows that the sort can only produce the order 1, 2, 0 for codes 2, 0, 1, and `SplatReader.ScatterLeavesMortonOrder` shows that the positions written through it are then out of Morton order.
- The corrected conversion is `SplatReader.GatherToFloatArray`. `SplatReader.GatherFollowsMortonOrder` proves that positions it writes through the Morton order are stored by non-decreasing code.
