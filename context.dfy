/** The Context of an edit session (src/Context.cpp): it owns the list of
    outputs and an optional preview chain, keeps the model's chain set in step
    with them, and answers render requests. Signal wiring is a ghost multiset
    of connected outputs; what a method does to the world outside its fields
    (connections, model updates, renders, emitted signals) is returned as a
    ghost trace of events, in the order it happens. */
module Orchestration {
  import opened Collaborators

  /** The two Output signals the Context listens to. */
  datatype Signal = RenderRequested | ChainChanged

  /** What the Context does to the world outside its own fields. */
  datatype Event =
    | Connected(output: Output, signal: Signal)
    | Disconnected(output: Output, signal: Signal)
    | ChainsSet(chains: seq<Chain>)
    | Rendered(chain: Chain)
    | RenderReady(output: Output, texture: int)
    | ModelChanged(model: Model)
    | PreviewSizeChanged(size: Size)
    | OutputsChanged(outputs: seq<Output>)

  const DefaultPreviewSize := Size(300, 300)

  /** The chain of each output, in list order. */
  function ChainsOf(os: seq<Output>): (cs: seq<Chain>)
    reads set o | o in os
    ensures |cs| == |os|
    ensures forall k {:trigger os[k]} :: 0 <= k < |os| ==> cs[k] == os[k].chain
  {
    if os == [] then [] else ChainsOf(os[..|os| - 1]) + [os[|os| - 1].chain]
  }

  /** The disconnections setOutputs makes for the old list: both signals of
      each output, output by output. */
  function Detaching(os: seq<Output>): (es: seq<Event>)
    ensures |es| == 2 * |os|
  {
    if os == [] then []
    else Detaching(os[..|os| - 1]) + [Disconnected(os[|os| - 1], RenderRequested), Disconnected(os[|os| - 1], ChainChanged)]
  }

  /** The connections setOutputs makes for the new list. */
  function Attaching(os: seq<Output>): (es: seq<Event>)
    ensures |es| == 2 * |os|
  {
    if os == [] then []
    else Attaching(os[..|os| - 1]) + [Connected(os[|os| - 1], RenderRequested), Connected(os[|os| - 1], ChainChanged)]
  }

  /** Detaching disconnects, for each output in list order, its
      renderRequested signal and then its chainChanged signal, and nothing
      else. */
  lemma {:induction false} DetachingPairs(os: seq<Output>)
    ensures forall k :: 0 <= k < |os| ==>
      Detaching(os)[2 * k] == Disconnected(os[k], RenderRequested)
      && Detaching(os)[2 * k + 1] == Disconnected(os[k], ChainChanged)
  {
    if os != [] {
      var front := os[..|os| - 1];
      DetachingPairs(front);
      assert forall k :: 0 <= k < |front| ==> front[k] == os[k];
    }
  }

  /** Attaching connects, for each output in list order, its renderRequested
      signal and then its chainChanged signal, and nothing else. */
  lemma {:induction false} AttachingPairs(os: seq<Output>)
    ensures forall k :: 0 <= k < |os| ==>
      Attaching(os)[2 * k] == Connected(os[k], RenderRequested)
      && Attaching(os)[2 * k + 1] == Connected(os[k], ChainChanged)
  {
    if os != [] {
      var front := os[..|os| - 1];
      AttachingPairs(front);
      assert forall k :: 0 <= k < |front| ==> front[k] == os[k];
    }
  }

  /** The outputs held by the entries of a QML list that convert to Output,
      in list order; the other entries are dropped. */
  function OutputsIn(vs: seq<Variant>): (os: seq<Output>)
    ensures |os| <= |vs|
    ensures forall o :: o in os ==> OutputRef(o) in vs
  {
    if vs == [] then []
    else
      var last := vs[|vs| - 1];
      OutputsIn(vs[..|vs| - 1]) + (if last.OutputRef? then [last.output] else [])
  }

  /** outputsQml: each output wrapped in a variant, in list order. */
  function AsVariants(os: seq<Output>): (vs: seq<Variant>)
    ensures |vs| == |os|
    ensures forall k :: 0 <= k < |os| ==> vs[k] == OutputRef(os[k])
  {
    if os == [] then [] else AsVariants(os[..|os| - 1]) + [OutputRef(os[|os| - 1])]
  }

  /** Filtering commutes with concatenation, so entries keep their order. */
  lemma {:induction false} OutputsInConcat(a: seq<Variant>, b: seq<Variant>)
    ensures OutputsIn(a + b) == OutputsIn(a) + OutputsIn(b)
  {
    if b == [] {
      assert a + b == a;
    } else {
      var b' := b[..|b| - 1];
      assert (a + b)[..|a + b| - 1] == a + b';
      assert (a + b)[|a + b| - 1] == b[|b| - 1];
      OutputsInConcat(a, b');
    }
  }

  /** Every entry that holds an output contributes it. */
  lemma {:induction false} OutputsInComplete(vs: seq<Variant>, o: Output)
    requires OutputRef(o) in vs
    ensures o in OutputsIn(vs)
  {
    var front := vs[..|vs| - 1];
    if vs[|vs| - 1] != OutputRef(o) {
      assert vs == front + [vs[|vs| - 1]];
      OutputsInComplete(front, o);
    }
  }

  /** Nothing is dropped exactly when every entry converts. */
  lemma {:induction false} OutputsInDropsNothing(vs: seq<Variant>)
    ensures |OutputsIn(vs)| == |vs| <==> forall k :: 0 <= k < |vs| ==> vs[k].OutputRef?
  {
    if vs != [] {
      var front := vs[..|vs| - 1];
      OutputsInDropsNothing(front);
      assert forall k :: 0 <= k < |front| ==> front[k] == vs[k];
    }
  }

  /** Reading the outputs as a QML list and writing that list back gives the
      same outputs. */
  lemma {:induction false} OutputsInAsVariants(os: seq<Output>)
    ensures OutputsIn(AsVariants(os)) == os
  {
    if os != [] {
      var front := os[..|os| - 1];
      OutputsInAsVariants(front);
      assert AsVariants(os)[..|os| - 1] == AsVariants(front);
      assert os == front + [os[|os| - 1]];
    }
  }

  /** The texture handed back for an output of the given name, when the
      snapshot maps output names to node ids and rendering yields results. */
  function TextureFor(outputNodes: map<string, int>, results: map<int, int>, name: string): (t: int)
    ensures ValueOr(outputNodes, name, 0) == 0 ==> t == 0
    ensures t != 0 ==>
      name in outputNodes && outputNodes[name] != 0 && outputNodes[name] in results && t == results[outputNodes[name]]
    ensures name in outputNodes && outputNodes[name] != 0 && outputNodes[name] in results ==>
      t == results[outputNodes[name]]
    ensures name in outputNodes && outputNodes[name] != 0 && outputNodes[name] !in results ==> t == 0
  {
    var nodeId := ValueOr(outputNodes, name, 0);
    if nodeId != 0 then ValueOr(results, nodeId, 0) else 0
  }

  class Context {
    var model: Model?
    var outputs: seq<Output>
    const hasPreview: bool
    var previewSize: Size
    var previewChain: Chain?
    var lastPreviewRender: map<int, int>
    /** Outputs whose two signals are wired to this Context, with multiplicity. */
    ghost var connected: multiset<Output>

    /** The preview chain exists exactly when the Context has a preview and
        then has the preview size; the outputs wired to this Context are
        exactly the outputs of the list, once per occurrence. */
    ghost predicate Valid()
      reads this`previewChain, this`previewSize, this`connected, this`outputs
    {
      (previewChain != null <==> hasPreview)
      && (previewChain != null ==> previewChain.size == previewSize)
      && connected == multiset(outputs)
    }

    /** The chain set: the preview chain when there is one, then each output's
        chain in list order. */
    function ChainSet(): (cs: seq<Chain>)
      reads this`previewChain, this`outputs, set o | o in outputs
      requires previewChain != null <==> hasPreview
      ensures |cs| == (if hasPreview then 1 else 0) + |outputs|
      ensures hasPreview ==> cs[0] == previewChain
    {
      (if previewChain != null then [previewChain] else []) + ChainsOf(outputs)
    }

    /** After the preview chain (if any) come the outputs' chains, each at the
        position of its output in the list. */
    lemma ChainSetOrder()
      requires previewChain != null <==> hasPreview
      ensures forall k :: 0 <= k < |outputs| ==>
        ChainSet()[(if hasPreview then 1 else 0) + k] == outputs[k].chain
    {
    }

    /** Every output's chain is in the chain set, and so is the preview chain
        when there is one. */
    lemma ChainSetCovers()
      requires previewChain != null <==> hasPreview
      ensures forall o :: o in outputs ==> o.chain in ChainSet()
      ensures previewChain != null ==> previewChain in ChainSet()
    {
    }

    constructor (hasPreview: bool := true)
      ensures Valid()
      ensures this.hasPreview == hasPreview && previewSize == DefaultPreviewSize
      ensures hasPreview ==> fresh(previewChain)
      ensures model == null && outputs == [] && lastPreviewRender == map[]
    {
      this.hasPreview := hasPreview;
      previewSize := DefaultPreviewSize;
      model := null;
      outputs := [];
      lastPreviewRender := map[];
      connected := multiset{};
      if hasPreview {
        previewChain := new Chain(DefaultPreviewSize);
      } else {
        previewChain := null;
      }
    }

    /** Swaps the model, hands it the current chain set and announces it. */
    method SetModel(m: Model) returns (ghost trace: seq<Event>)
      requires Valid()
      modifies this`model, m`chains
      ensures Valid() && model == m
      ensures m.chains == ChainSet()
      ensures trace == [ChainsSet(ChainSet()), ModelChanged(m)]
    {
      model := m;
      trace := ChainsChanged();
      trace := trace + [ModelChanged(m)];
    }

    /** A new size replaces the preview chain by a fresh one of that size and
        resynchronises the model; the current size changes nothing. */
    method SetPreviewSize(size: Size) returns (ghost trace: seq<Event>)
      requires Valid() && hasPreview
      requires size != previewSize ==> model != null
      modifies this`previewSize, this`previewChain, model
      ensures Valid()
      ensures size == old(previewSize) ==> unchanged(this) && (model != null ==> unchanged(model)) && trace == []
      ensures size != old(previewSize) ==>
        previewSize == size && fresh(previewChain) && previewChain.size == size
        && model.chains == ChainSet()
        && trace == [ChainsSet(ChainSet()), PreviewSizeChanged(size)]
    {
      trace := [];
      if size != previewSize {
        previewSize := size;
        previewChain := new Chain(size);
        trace := ChainsChanged();
        trace := trace + [PreviewSizeChanged(size)];
      }
    }

    /** Renders the model into the preview chain and keeps the result for
        previewTexture. */
    method OnBeforeSynchronizing() returns (ghost trace: seq<Event>)
      requires Valid() && hasPreview && model != null
      modifies this`lastPreviewRender
      ensures previewChain != null && lastPreviewRender == model.renderer(previewChain)
      ensures trace == [Rendered(previewChain)]
    {
      lastPreviewRender := model.renderer(previewChain);
      trace := [Rendered(previewChain)];
    }

    function PreviewTexture(nodeId: int): (t: int)
      reads this`lastPreviewRender
      requires hasPreview
      ensures nodeId in lastPreviewRender ==> t == lastPreviewRender[nodeId]
      ensures nodeId !in lastPreviewRender ==> t == 0
    {
      ValueOr(lastPreviewRender, nodeId, 0)
    }

    /** Answers a render request: renders only when the output is wired to a
        node, and hands exactly one texture back to the output. */
    method OnRenderRequested(output: Output) returns (ghost trace: seq<Event>)
      requires model != null
      ensures var nodes := model.outputNodes(output.chain);
        trace == (if ValueOr(nodes, output.name, 0) != 0 then [Rendered(output.chain)] else [])
                 + [RenderReady(output, TextureFor(nodes, model.renderer(output.chain), output.name))]
    {
      var name := output.name;
      var chain := output.chain;
      var nodes := model.outputNodes(chain);
      var nodeId := ValueOr(nodes, name, 0);
      var textureId := 0;
      trace := [];
      if nodeId != 0 {
        var result := model.renderer(chain);
        trace := trace + [Rendered(chain)];
        textureId := ValueOr(result, nodeId, 0);
      }
      trace := trace + [RenderReady(output, textureId)];
    }

    /** Context::chains(): builds the chain set by appending m_previewChain
        and then each output's chain. */
    method Chains() returns (cs: seq<Chain>)
      requires Valid()
      ensures cs == ChainSet()
    {
      var o := outputs;
      cs := [];
      if hasPreview {
        cs := cs + [previewChain];
      }
      var i := 0;
      while i < |o|
        invariant 0 <= i <= |o|
        invariant cs == (if hasPreview then [previewChain] else []) + ChainsOf(o[..i])
      {
        assert o[..i + 1][..i] == o[..i];
        cs := cs + [o[i].chain];
        i := i + 1;
      }
      assert o[..i] == o;
    }

    /** Hands the current chain set to the model. */
    method ChainsChanged() returns (ghost trace: seq<Event>)
      requires Valid() && model != null
      modifies model`chains
      ensures model.chains == ChainSet()
      ensures trace == [ChainsSet(ChainSet())]
    {
      var cs := Chains();
      model.SetChains(cs);
      trace := [ChainsSet(cs)];
    }

    /** The outputs as a QML list. */
    method OutputsQml() returns (vs: seq<Variant>)
      ensures vs == AsVariants(outputs)
    {
      vs := [];
      var i := 0;
      while i < |outputs|
        invariant 0 <= i <= |outputs|
        invariant vs == AsVariants(outputs[..i])
      {
        assert outputs[..i + 1][..i] == outputs[..i];
        vs := vs + [OutputRef(outputs[i])];
        i := i + 1;
      }
      assert outputs[..i] == outputs;
    }

    /** Keeps the entries that convert to an output, in order, and passes
        them to setOutputs. */
    method SetOutputsQml(vs: seq<Variant>) returns (ghost trace: seq<Event>)
      requires Valid()
      requires OutputsIn(vs) != outputs ==> model != null
      modifies this`outputs, this`connected, model
      ensures Valid()
      ensures OutputsIn(vs) == old(outputs) ==> unchanged(this) && (model != null ==> unchanged(model)) && trace == []
      ensures OutputsIn(vs) != old(outputs) ==>
        outputs == OutputsIn(vs) && model.chains == ChainSet()
        && trace == Detaching(old(outputs)) + Attaching(outputs) + [ChainsSet(ChainSet())] + [OutputsChanged(outputs)]
    {
      var converted: seq<Output> := [];
      var i := 0;
      while i < |vs|
        invariant 0 <= i <= |vs|
        invariant converted == OutputsIn(vs[..i])
      {
        assert vs[..i + 1][..i] == vs[..i];
        if vs[i].OutputRef? {
          converted := converted + [vs[i].output];
        }
        i := i + 1;
      }
      assert vs[..i] == vs;
      trace := SetOutputs(converted);
    }

    /** The same list changes nothing. A different list rewires the outputs,
        then resynchronises the chains, then announces the new list. */
    method SetOutputs(newOutputs: seq<Output>) returns (ghost trace: seq<Event>)
      requires Valid()
      requires newOutputs != outputs ==> model != null
      modifies this`outputs, this`connected, model
      ensures Valid()
      ensures newOutputs == old(outputs) ==> unchanged(this) && (model != null ==> unchanged(model)) && trace == []
      ensures newOutputs != old(outputs) ==>
        outputs == newOutputs && model.chains == ChainSet()
        && trace == Detaching(old(outputs)) + Attaching(newOutputs) + [ChainsSet(ChainSet())] + [OutputsChanged(newOutputs)]
    {
      trace := [];
      if outputs != newOutputs {
        var rewired := RewireOutputs(newOutputs);
        var synced := ChainsChanged();
        trace := rewired + synced + [OutputsChanged(newOutputs)];
      }
    }

    /** The two loops of setOutputs: detach the old outputs, replace the list,
        attach the new ones. */
    method RewireOutputs(newOutputs: seq<Output>) returns (ghost trace: seq<Event>)
      requires Valid()
      modifies this`outputs, this`connected
      ensures Valid() && outputs == newOutputs
      ensures trace == Detaching(old(outputs)) + Attaching(newOutputs)
    {
      var detached := DetachOutputs();
      outputs := newOutputs;
      var attached := AttachOutputs();
      trace := detached + attached;
    }

    /** The first loop of setOutputs: both signals of every current output
        are disconnected (a disconnect drops every duplicate connection). */
    method DetachOutputs() returns (ghost trace: seq<Event>)
      requires connected == multiset(outputs)
      modifies this`connected
      ensures connected == multiset{}
      ensures trace == Detaching(outputs)
    {
      trace := [];
      var i := 0;
      while i < |outputs|
        invariant 0 <= i <= |outputs|
        invariant forall o :: connected[o] == if o in outputs[..i] then 0 else multiset(outputs)[o]
        invariant trace == Detaching(outputs[..i])
      {
        assert outputs[..i + 1][..i] == outputs[..i];
        trace := trace + [Disconnected(outputs[i], RenderRequested), Disconnected(outputs[i], ChainChanged)];
        connected := connected[outputs[i] := 0];
        i := i + 1;
      }
      assert outputs[..i] == outputs;
      assert connected == multiset{};
    }

    /** The second loop of setOutputs: both signals of every output of the
        new list are connected. */
    method AttachOutputs() returns (ghost trace: seq<Event>)
      requires connected == multiset{}
      modifies this`connected
      ensures connected == multiset(outputs)
      ensures trace == Attaching(outputs)
    {
      trace := [];
      var i := 0;
      while i < |outputs|
        invariant 0 <= i <= |outputs|
        invariant connected == multiset(outputs[..i])
        invariant trace == Attaching(outputs[..i])
      {
        assert outputs[..i + 1] == outputs[..i] + [outputs[i]];
        assert outputs[..i + 1][..i] == outputs[..i];
        trace := trace + [Connected(outputs[i], RenderRequested), Connected(outputs[i], ChainChanged)];
        connected := connected + multiset{outputs[i]};
        i := i + 1;
      }
      assert outputs[..i] == outputs;
    }
  }
}
