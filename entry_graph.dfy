/**
 * Entry nodes of the size-analysis graph (`EntryNode` in
 * packages/webpack-plugin/lib/index.js). Nodes are shared objects; edges are
 * kept as sets on both ends, so the graph may contain cycles and self-loops.
 */
module EntryGraph {
  import opened Wrappers

  /** A webpack module, known to this model only by its identity. */
  type ModuleHandle = nat

  class EntryNode {
    const request: string
    const entryType: string
    var entryModule: Option<ModuleHandle>
    var parents: set<EntryNode>
    var children: set<EntryNode>

    /** A node for `request` of kind `entryType`, with no module and no edges. */
    constructor (request: string, entryType: string)
      ensures this.request == request && this.entryType == entryType
      ensures entryModule == None && parents == {} && children == {}
    {
      this.request := request;
      this.entryType := entryType;
      entryModule := None;
      parents := {};
      children := {};
    }

    /**
     * `addChild`: records the edge on both ends. Adding an edge that exists
     * changes nothing, and `node` may be this node itself.
     */
    method AddChild(node: EntryNode)
      modifies this`children, node`parents
      ensures children == old(children) + {node}
      ensures node.parents == old(node.parents) + {this}
      ensures node != this ==> parents == old(parents)
      ensures node in old(children) && this in old(node.parents) ==>
        children == old(children) && node.parents == old(node.parents)
    {
      children := children + {node};
      node.parents := node.parents + {this};
    }
  }
}
