/** The objects the Context orchestrates but does not own: chains, outputs and
    the live model. Only the parts of them that the Context touches are kept. */
module Collaborators {

  /** A QSize: width and height of a render target. */
  datatype Size = Size(width: int, height: int)

  /** A rendering target context. Its identity is the object reference
      (m_previewChain and Output::chain() share it through a QSharedPointer);
      its size is fixed for life. */
  class Chain {
    const size: Size

    constructor (size: Size)
      ensures this.size == size
    {
      this.size := size;
    }
  }

  /** A named sink. Its chain can be swapped by the output itself, which it
      announces with its chainChanged signal. */
  class Output {
    const name: string
    var chain: Chain

    constructor (name: string, chain: Chain)
      ensures this.name == name && this.chain == chain
    {
      this.name := name;
      this.chain := chain;
    }
  }

  /** The live node graph, reduced to what the Context sees of it: the chain
      set it was last given, the name-to-node-id table of the snapshot that
      createCopyForRendering produces for a chain, and what rendering that
      snapshot into the chain yields (node id to texture id). */
  class Model {
    var chains: seq<Chain>
    const outputNodes: Chain -> map<string, int>
    const renderer: Chain -> map<int, int>

    constructor (outputNodes: Chain -> map<string, int>, renderer: Chain -> map<int, int>)
      ensures chains == [] && this.outputNodes == outputNodes && this.renderer == renderer
    {
      chains := [];
      this.outputNodes := outputNodes;
      this.renderer := renderer;
    }

    /** Model::setChains: the chain set the model keeps render states for. */
    method SetChains(cs: seq<Chain>)
      modifies this`chains
      ensures chains == cs
    {
      chains := cs;
    }
  }

  /** An entry of a QVariantList handed over from QML: either it holds an
      Output pointer, or something that does not convert to one. */
  datatype Variant = OutputRef(output: Output) | Other

  /** QMap::value(key, default). */
  function ValueOr<K, V>(m: map<K, V>, k: K, d: V): (v: V)
    ensures k in m ==> v == m[k]
    ensures k !in m ==> v == d
  {
    if k in m then m[k] else d
  }
}
