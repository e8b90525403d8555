# Context orchestration model

This project models the `Context` object of the Radiance video engine
(`src/Context.cpp`, fields at `src/Context.h:50-57`). A Context owns three things:

- the list of outputs;
- an optional preview chain, together with its size;
- the most recent preview render.

It keeps the model's chain set equal to "the preview chain if there is one,
then each output's chain in list order". It wires each output's
`renderRequested` and `chainChanged` signals to itself, and it answers render
requests.

The model has two Dafny modules:

- `Collaborators` (`collaborators.dfy`) holds the objects the Context uses
  but does not own:
  - `Chain`: a rendering target with a fixed size;
  - `Output`: a name and a replaceable chain;
  - `Model`: the chain set it was last given, plus two abstract functions;
  - `Variant`: an entry of a QML list;
  - `ValueOr`: `QMap::value` with a default.
- `Orchestration` (`context.dfy`) holds the `Context` class. `Context` is a
  class because its setters update its fields in place:
  - `model`, `outputs`, `previewSize`, `previewChain` and `lastPreviewRender`
    are its fields;
  - the ghost field `connected` is the multiset of outputs wired to it;
  - `Valid()` ties these together: the preview chain exists exactly when
    `hasPreview` holds, and it has the preview size; `connected` is exactly
    the outputs of the list.

The model's two abstract functions are:

- `outputNodes`: the name-to-node-id table of the snapshot that
  `createCopyForRendering` produces for a chain;
- `renderer`: what rendering that snapshot into the chain returns.

Each method that acts on the outside world returns a ghost `trace` of
`Event`s, in the order the source does them. The actions are connections,
disconnections, `setChains` calls, renders, `renderReady` and the emitted
signals. The method's contract states that trace exactly. Taking a
`createCopyForRendering` snapshot is not an event: `onRenderRequested` takes
one even when no render follows (`src/Context.cpp:85`), and the trace does not
record it.

The loops of the source are Dafny loops with invariants:

- `Chains` and `OutputsQml`;
- the conversion loop of `SetOutputsQml`;
- the disconnect and connect loops of `setOutputs` (`DetachOutputs`,
  `AttachOutputs`).

Each loop is proved against a function defined by recursion: `ChainsOf`
(which `ChainSet` extends with the preview chain), `AsVariants`, `OutputsIn`,
`Detaching` and `Attaching`. Lemmas state what those
functions mean.

## Model

| member | source | states |
|---|---|---|
| Orchestration.Context.constructor | src/Context.cpp:6-14 | `hasPreview` defaults to true, as declared at `src/Context.h:16`; the preview size is 300x300; a preview chain of that size exists exactly when `hasPreview` holds, and it is a new object; there are no outputs, no wiring and no preview render yet |
| Orchestration.Context.SetModel | src/Context.cpp:24-29 | the model is replaced; the new model's chain set equals the Context's chain set; the trace is the `setChains` call followed by `modelChanged` |
| Orchestration.Context.SetPreviewSize | src/Context.cpp:37-50 | the current size leaves the Context and the model unchanged, keeps the preview chain's identity, and has an empty trace; a different size stores the size, installs a fresh chain of that size, makes the model's chain set equal the new chain set, and has the trace `setChains` then `previewSizeChanged` |
| Orchestration.Context.OnBeforeSynchronizing | src/Context.cpp:70-75 | the stored preview render becomes the render of the preview chain, and that is the only render performed |
| Orchestration.Context.PreviewTexture | src/Context.cpp:77-80 | the stored render's texture for the id when the id is present, and 0 otherwise |
| Collaborators.ValueOr | src/Context.cpp:79 | map lookup with a default: the stored value when the key is present, the default otherwise |
| Orchestration.TextureFor | src/Context.cpp:85-92 | the texture is 0 when the name maps to no node (id 0); a nonzero texture comes from a present, nonzero node id that is in the render results, and is the result at that id; a nonzero id missing from the render results gives 0 |
| Orchestration.Context.OnRenderRequested | src/Context.cpp:82-94 | a render happens only when the output's name maps to a nonzero node id; exactly one `renderReady` follows, and it carries `TextureFor` of that lookup |
| Orchestration.ChainsOf | src/Context.cpp:102-104 | one chain per output; position k holds output k's chain |
| Orchestration.Context.ChainSet | src/Context.cpp:96-106 | the length is (1 if there is a preview, else 0) plus the number of outputs; with a preview, the first chain is the preview chain |
| Orchestration.Context.ChainSetOrder | src/Context.cpp:99-104 | after the preview chain (if any), output k's chain sits at position k |
| Orchestration.Context.ChainSetCovers | src/Context.cpp:99-104 | every output's chain and the preview chain are in the chain set |
| Orchestration.Context.Chains | src/Context.cpp:96-106 | the appending loop returns exactly the chain set |
| Orchestration.Context.ChainsChanged | src/Context.cpp:108-110 | the model's chain set becomes the Context's chain set, in one `setChains` call |
| Orchestration.AsVariants | src/Context.cpp:117-122 | one variant per output, in order; entry k holds output k |
| Orchestration.Context.OutputsQml | src/Context.cpp:117-122 | the loop returns each output wrapped as a variant, in list order |
| Orchestration.OutputsIn | src/Context.cpp:125-132 | never longer than the input list; every output it yields came from an entry of the list |
| Orchestration.OutputsInConcat | src/Context.cpp:126-132 | filtering commutes with concatenation, so kept entries stay in their order |
| Orchestration.OutputsInComplete | src/Context.cpp:127-128 | every entry that holds an output contributes it |
| Orchestration.OutputsInDropsNothing | src/Context.cpp:126-132 | nothing is dropped exactly when every entry converts to an output (both directions) |
| Orchestration.OutputsInAsVariants | src/Context.cpp:117-134 | giving `setOutputsQml` the list `outputsQml` returned hands back the same output list, so `setOutputs` does nothing |
| Orchestration.Context.SetOutputsQml | src/Context.cpp:124-134 | the converted subsequence goes to `setOutputs`, with the same outcome as calling `setOutputs` on it |
| Orchestration.Context.SetOutputs | src/Context.cpp:136-152 | the same list changes nothing: no wiring, no `setChains`, no signal; a different list ends with `outputs` equal to it and exactly its outputs wired; the trace is every old output detached, then every new output attached, then one `setChains` with the new chain set, then `outputsChanged` |
| Orchestration.Context.RewireOutputs | src/Context.cpp:139-148 | the list is replaced and the wiring is exactly the new list; the trace is the old outputs' disconnections followed by the new outputs' connections |
| Orchestration.Context.DetachOutputs | src/Context.cpp:140-143 | afterwards no output is wired (a disconnect removes every duplicate connection); both signals of each output are disconnected, in list order |
| Orchestration.Context.AttachOutputs | src/Context.cpp:145-148 | afterwards the wiring is exactly the output list, once per occurrence; both signals of each output are connected, in list order |
| Orchestration.Detaching | src/Context.cpp:140-143 | two disconnection events per output |
| Orchestration.DetachingPairs | src/Context.cpp:140-143 | event 2k disconnects output k's `renderRequested` and event 2k+1 disconnects its `chainChanged` |
| Orchestration.Attaching | src/Context.cpp:145-148 | two connection events per output |
| Orchestration.AttachingPairs | src/Context.cpp:145-148 | event 2k connects output k's `renderRequested` and event 2k+1 connects its `chainChanged` |

## Left out

- Orchestration.Context.SetOutputs, Orchestration.Context.SetOutputsQml:
  null `Output` entries are excluded by the non-null `Output` type. In the
  source such an entry passes `canConvert` (`src/Context.cpp:127`), its
  connects fail (`src/Context.cpp:146-147`), and `chains()` then dereferences
  it (`src/Context.cpp:103`).
- The `Q_ASSERT` thread-affinity checks and the `QMutexLocker` locking
  (lines 33, 42 and 60) are left out because they concern concurrency.
  `Q_ASSERT(m_hasPreview)` becomes `requires hasPreview`.
- Qt's connect/disconnect mechanics and signal delivery are represented only
  by the ghost `connected` multiset and the ghost event traces. The traces
  are ghost, so they place no demands on a compiled caller.
- The preview-window accessors and their wiring (lines 52-68) are not
  modelled.
- The getters `model()`, `outputs()` and `previewSize()` (lines 19-22,
  112-115 and 31-35) are plain field reads.
- The `qWarning` for a bad QML entry (line 130) is I/O and is dropped; the
  entry itself is skipped, as in the source.
- The model's snapshot and render (`Model::createCopyForRendering`,
  `render`, `setChains`) are abstract. The snapshot's output table and the
  render result are fixed functions of the chain. `Model.cpp` and
  `Output.cpp` are not part of this model, and neither is any GPU work.
- `m_model` is not initialised by the constructor. The model starts with no
  model (`null`). Every operation that dereferences it requires a model:
  - `onRenderRequested` and `onBeforeSynchronizing` require one outright;
  - `setPreviewSize` and `setOutputs` require one only when the value
    changes;
  - `setModel` takes a non-null model, because the source's `chainsChanged`
    dereferences it straight away.
- Orchestration.Context.OnBeforeSynchronizing: the copy-back of render
  states is commented out in the source and is not modelled.
- `src/MovieNode.h`, `src/Paths.cpp`, `filters/filter.h` and
  `src/GraphicalDisplay.h` are outside this model. They hold declarations,
  platform path lookup, audio plugin interfaces and a UI widget.
