/** Where a token's key and value stand in the flat cache. */
module KvSlots {
  import opened Arithmetic

  datatype Layout = Standard | Mla | Dsa

  /** Rows of `blockTokens` slots one block takes up. */
  function RowsPerBlock(layout: Layout, layers: nat): nat
  {
    match layout
    case Standard => layers * 2
    case Mla => layers
    case Dsa => 1
  }

  /** `BuildFlatKVCacheBlkIds`, for one block id. */
  function BaseRow(layout: Layout, layers: nat, baseId: nat, block: nat): nat
    requires baseId <= block
  {
    (block - baseId) * RowsPerBlock(layout, layers)
  }

  /** The slot of in-block offset `offset` of `block` in layer `layer`. */
  function Slot(layout: Layout, layers: nat, blockTokens: nat, baseId: nat, block: nat, layer: nat, offset: nat): nat
    requires baseId <= block
  {
    (BaseRow(layout, layers, baseId, block) + layer) * blockTokens + offset
  }

  /** A value stands half a block behind its key. */
  function ValueSlot(layers: nat, blockTokens: nat, baseId: nat, block: nat, layer: nat, offset: nat): nat
    requires baseId <= block
  {
    Slot(Standard, layers, blockTokens, baseId, block, layer, offset) + layers * blockTokens
  }

  /** In the standard and the MLA layout no two (block, layer, offset) share a slot. */
  lemma SlotsAreDistinct(layout: Layout, layers: nat, blockTokens: nat, baseId: nat,
                         b: nat, l: nat, o: nat, b': nat, l': nat, o': nat)
    requires !layout.Dsa? && baseId <= b && baseId <= b'
    requires l < layers && l' < layers && o < blockTokens && o' < blockTokens
    requires Slot(layout, layers, blockTokens, baseId, b, l, o) == Slot(layout, layers, blockTokens, baseId, b', l', o')
    ensures b == b' && l == l' && o == o'
  {
    var rows := RowsPerBlock(layout, layers);
    DivisionIsUnique(BaseRow(layout, layers, baseId, b) + l, o,
                     BaseRow(layout, layers, baseId, b') + l', o', blockTokens);
    DivisionIsUnique(b - baseId, l, b' - baseId, l', rows);
  }

  ghost predicate Distinct(layout: Layout, layers: nat, blockTokens: nat)
  {
    forall b: nat, l: nat, b': nat, l': nat
      {:trigger Slot(layout, layers, blockTokens, 0, b, l, 0), Slot(layout, layers, blockTokens, 0, b', l', 0)} ::
      l < layers && l' < layers
      && Slot(layout, layers, blockTokens, 0, b, l, 0) == Slot(layout, layers, blockTokens, 0, b', l', 0)
      ==> b == b' && l == l'
  }

  /** The layout with one row per block keeps layers apart exactly when there is only one: block 0 in layer 1
      and block 1 in layer 0 share a slot. */
  lemma OneRowNeedsOneLayer(layers: nat, blockTokens: nat)
    requires layers > 0 && blockTokens > 0
    ensures Distinct(Dsa, layers, blockTokens) <==> layers == 1
  {
    assert Slot(Dsa, layers, blockTokens, 0, 0, 1, 0) == Slot(Dsa, layers, blockTokens, 0, 1, 0, 0);
    if layers == 1 {
      forall b: nat, l: nat, b': nat, l': nat
        {:trigger Slot(Dsa, layers, blockTokens, 0, b, l, 0), Slot(Dsa, layers, blockTokens, 0, b', l', 0)}
        | l < 1 && l' < 1 && Slot(Dsa, layers, blockTokens, 0, b, l, 0) == Slot(Dsa, layers, blockTokens, 0, b', l', 0)
        ensures b == b' && l == l'
      {
        DivisionIsUnique(BaseRow(Dsa, layers, 0, b) + l, 0, BaseRow(Dsa, layers, 0, b') + l', 0, blockTokens);
      }
    }
  }

  /** A value slot is the key slot `layers` rows further down in the same block. */
  lemma ValueIsShiftedKey(layers: nat, blockTokens: nat, baseId: nat, b: nat, l: nat, o: nat)
    requires baseId <= b
    ensures ValueSlot(layers, blockTokens, baseId, b, l, o) ==
            Slot(Standard, layers, blockTokens, baseId, b, l + layers, o)
  {
    var row := BaseRow(Standard, layers, baseId, b) + l;
    assert (row + layers) * blockTokens == row * blockTokens + layers * blockTokens;
  }

  /** In the standard layout a pool of `blocks` blocks has `2 * layers * blockTokens` slots per block. */
  function PoolSize(layers: nat, blockTokens: nat, blocks: nat): nat
  {
    blocks * (layers * 2) * blockTokens
  }

  lemma RowInPool(rows: nat, blocks: nat, b: nat, l: nat)
    requires b < blocks && l < rows
    ensures b * rows + l < blocks * rows
  {
    assert (b + 1) * rows <= blocks * rows;
    assert (b + 1) * rows == b * rows + rows;
  }

  lemma SlotInPool(rows: nat, tokens: nat, row: nat, o: nat)
    requires row < rows && o < tokens
    ensures row * tokens + o < rows * tokens
  {
    RowInPool(tokens, rows, row, o);
  }

  /** Keys and values stay inside the pool. */
  lemma SlotsStayInPool(layers: nat, blockTokens: nat, baseId: nat, blocks: nat, b: nat, l: nat, o: nat)
    requires baseId <= b < baseId + blocks && l < layers && o < blockTokens
    ensures Slot(Standard, layers, blockTokens, baseId, b, l, o) < PoolSize(layers, blockTokens, blocks)
    ensures ValueSlot(layers, blockTokens, baseId, b, l, o) < PoolSize(layers, blockTokens, blocks)
  {
    ValueIsShiftedKey(layers, blockTokens, baseId, b, l, o);
    RowInPool(layers * 2, blocks, b - baseId, l);
    RowInPool(layers * 2, blocks, b - baseId, l + layers);
    SlotInPool(blocks * (layers * 2), blockTokens, BaseRow(Standard, layers, baseId, b) + l, o);
    SlotInPool(blocks * (layers * 2), blockTokens, BaseRow(Standard, layers, baseId, b) + (l + layers), o);
  }

  lemma RowsAreDistinct(rows: nat, blockTokens: nat, b: nat, l: nat, o: nat, b': nat, l': nat, o': nat)
    requires l < rows && l' < rows && o < blockTokens && o' < blockTokens
    requires (b * rows + l) * blockTokens + o == (b' * rows + l') * blockTokens + o'
    ensures b == b' && l == l' && o == o'
  {
    DivisionIsUnique(b * rows + l, o, b' * rows + l', o', blockTokens);
    DivisionIsUnique(b, l, b', l', rows);
  }

  /** No key stands where a value stands. */
  lemma KeysAndValuesAreDisjoint(layers: nat, blockTokens: nat, baseId: nat,
                                 b: nat, l: nat, o: nat, b': nat, l': nat, o': nat)
    requires baseId <= b && baseId <= b' && l < layers && l' < layers && o < blockTokens && o' < blockTokens
    ensures Slot(Standard, layers, blockTokens, baseId, b, l, o) != ValueSlot(layers, blockTokens, baseId, b', l', o')
  {
    ValueIsShiftedKey(layers, blockTokens, baseId, b', l', o');
    if Slot(Standard, layers, blockTokens, baseId, b, l, o) == ValueSlot(layers, blockTokens, baseId, b', l', o') {
      RowsAreDistinct(layers * 2, blockTokens, b - baseId, l, o, b' - baseId, l' + layers, o');
    }
  }

  /** A row of the pool is a row of some block, in its key or its value half. */
  lemma RowBelongs(layers: nat, blocks: nat, y: nat) returns (isKey: bool, b: nat, l: nat)
    requires layers > 0 && y < blocks * (layers * 2)
    ensures b < blocks && l < layers && y == b * (layers * 2) + if isKey then l else l + layers
  {
    QuotientIsBelow(y, layers * 2, blocks);
    b := y / (layers * 2);
    var r := y % (layers * 2);
    isKey := r < layers;
    l := if isKey then r else r - layers;
  }

  /** Every slot of the pool holds a key or a value of some block, layer and offset. */
  lemma EverySlotIsUsed(layers: nat, blockTokens: nat, baseId: nat, blocks: nat, x: nat)
    returns (isKey: bool, b: nat, l: nat, o: nat)
    requires layers > 0 && blockTokens > 0 && x < PoolSize(layers, blockTokens, blocks)
    ensures baseId <= b < baseId + blocks && l < layers && o < blockTokens
    ensures x == if isKey then Slot(Standard, layers, blockTokens, baseId, b, l, o)
                 else ValueSlot(layers, blockTokens, baseId, b, l, o)
  {
    QuotientIsBelow(x, blockTokens, blocks * (layers * 2));
    var row;
    isKey, row, l := RowBelongs(layers, blocks, x / blockTokens);
    b, o := baseId + row, x % blockTokens;
    ValueIsShiftedKey(layers, blockTokens, baseId, b, l, o);
    assert BaseRow(Standard, layers, baseId, b) == row * (layers * 2);
  }

  /** In the MLA layout there are no values, and every slot is a key's. */
  lemma MlaUsesEverySlot(layers: nat, blockTokens: nat, baseId: nat, blocks: nat, x: nat)
    returns (b: nat, l: nat, o: nat)
    requires layers > 0 && blockTokens > 0 && x < blocks * layers * blockTokens
    ensures baseId <= b < baseId + blocks && l < layers && o < blockTokens
    ensures x == Slot(Mla, layers, blockTokens, baseId, b, l, o)
  {
    QuotientIsBelow(x, blockTokens, blocks * layers);
    var row := x / blockTokens;
    QuotientIsBelow(row, layers, blocks);
    b, l, o := baseId + row / layers, row % layers, x % blockTokens;
    assert BaseRow(Mla, layers, baseId, b) == row / layers * layers;
  }

  // ---- The slot mapping of a request's tokens ----

  /** The slot of the token at `pos`: its block, then its place in the block. */
  function TokenSlot(baseRows: seq<nat>, blockTokens: nat, layer: nat, pos: nat): nat
    requires blockTokens > 0 && pos / blockTokens < |baseRows|
  {
    (baseRows[pos / blockTokens] + layer) * blockTokens + pos % blockTokens
  }

  function BaseRows(layout: Layout, layers: nat, baseId: nat, blocks: seq<nat>): (rows: seq<nat>)
    requires forall i :: 0 <= i < |blocks| ==> baseId <= blocks[i]
    ensures |rows| == |blocks|
    ensures forall i {:trigger rows[i]} :: 0 <= i < |blocks| ==> rows[i] == BaseRow(layout, layers, baseId, blocks[i])
  {
    seq(|blocks|, i requires 0 <= i < |blocks| => BaseRow(layout, layers, baseId, blocks[i]))
  }

  lemma TokenPlace(layout: Layout, layers: nat, blockTokens: nat, baseId: nat, blocks: seq<nat>, l: nat, p: nat)
    returns (b: nat, o: nat)
    requires blockTokens > 0 && p / blockTokens < |blocks| && forall i :: 0 <= i < |blocks| ==> baseId <= blocks[i]
    ensures b == blocks[p / blockTokens] && o == p % blockTokens && o < blockTokens && baseId <= b
    ensures TokenSlot(BaseRows(layout, layers, baseId, blocks), blockTokens, l, p) ==
            Slot(layout, layers, blockTokens, baseId, b, l, o)
  {
    b, o := blocks[p / blockTokens], p % blockTokens;
  }

  /** Two tokens share a slot only if they stand in the same block, layer and place. */
  lemma TokensHaveOwnSlots(layout: Layout, layers: nat, blockTokens: nat, baseId: nat, blocks: seq<nat>,
                           others: seq<nat>, l: nat, p: nat, l': nat, p': nat)
    requires !layout.Dsa? && blockTokens > 0 && l < layers && l' < layers
    requires forall i :: 0 <= i < |blocks| ==> baseId <= blocks[i]
    requires forall i :: 0 <= i < |others| ==> baseId <= others[i]
    requires p / blockTokens < |blocks| && p' / blockTokens < |others|
    requires TokenSlot(BaseRows(layout, layers, baseId, blocks), blockTokens, l, p) ==
             TokenSlot(BaseRows(layout, layers, baseId, others), blockTokens, l', p')
    ensures blocks[p / blockTokens] == others[p' / blockTokens] && l == l' && p % blockTokens == p' % blockTokens
  {
    var b, o := TokenPlace(layout, layers, blockTokens, baseId, blocks, l, p);
    var b', o' := TokenPlace(layout, layers, blockTokens, baseId, others, l', p');
    SlotsAreDistinct(layout, layers, blockTokens, baseId, b, l, o, b', l', o');
  }

  /** So the tokens of a request whose blocks all differ have slots that all differ. */
  lemma OwnTokensDiffer(layout: Layout, layers: nat, blockTokens: nat, baseId: nat, blocks: seq<nat>,
                        l: nat, p: nat, l': nat, p': nat)
    requires !layout.Dsa? && blockTokens > 0 && l < layers && l' < layers && (l != l' || p != p')
    requires forall i :: 0 <= i < |blocks| ==> baseId <= blocks[i]
    requires forall i, j :: 0 <= i < j < |blocks| ==> blocks[i] != blocks[j]
    requires p / blockTokens < |blocks| && p' / blockTokens < |blocks|
    ensures TokenSlot(BaseRows(layout, layers, baseId, blocks), blockTokens, l, p) !=
            TokenSlot(BaseRows(layout, layers, baseId, blocks), blockTokens, l', p')
  {
    var rows := BaseRows(layout, layers, baseId, blocks);
    if TokenSlot(rows, blockTokens, l, p) == TokenSlot(rows, blockTokens, l', p') {
      TokensHaveOwnSlots(layout, layers, blockTokens, baseId, blocks, blocks, l, p, l', p');
      SamePlace(p, p', blockTokens);
    }
  }

  lemma SamePlace(p: nat, p': nat, m: nat)
    requires m > 0 && p % m == p' % m
    ensures p / m == p' / m <==> p == p'
  {
    assert p == (p / m) * m + p % m && p' == (p' / m) * m + p' % m;
  }

  /** One request's columns of the slot mapping, in every layer. */
  method FillSlotMapping(mapping: array2<int>, column: nat, baseRows: seq<nat>, tokens: nat, blockTokens: nat)
    requires blockTokens > 0 && column + tokens <= mapping.Length1
    requires tokens > 0 ==> (tokens - 1) / blockTokens < |baseRows|
    modifies mapping
    ensures forall l, p :: 0 <= l < mapping.Length0 && 0 <= p < tokens ==>
              p / blockTokens < |baseRows| && mapping[l, column + p] == TokenSlot(baseRows, blockTokens, l, p)
    ensures forall l, c | 0 <= l < mapping.Length0 && 0 <= c < mapping.Length1 && !(column <= c < column + tokens) ::
              mapping[l, c] == old(mapping[l, c])
  {
    forall p: nat | p < tokens ensures p / blockTokens < |baseRows| {
      QuotientGrows(p, tokens - 1, blockTokens);
    }
    for layer := 0 to mapping.Length0
      invariant forall l, p :: 0 <= l < layer && 0 <= p < tokens ==>
        mapping[l, column + p] == TokenSlot(baseRows, blockTokens, l, p)
      invariant forall l, c | 0 <= l < mapping.Length0 && 0 <= c < mapping.Length1 ::
        l >= layer || !(column <= c < column + tokens) ==> mapping[l, c] == old(mapping[l, c])
    {
      for token := 0 to tokens
        invariant forall l, p :: 0 <= l < layer && 0 <= p < tokens ==>
          mapping[l, column + p] == TokenSlot(baseRows, blockTokens, l, p)
        invariant forall p :: 0 <= p < token ==>
          mapping[layer, column + p] == TokenSlot(baseRows, blockTokens, layer, p)
        invariant forall l, c | 0 <= l < mapping.Length0 && 0 <= c < mapping.Length1 ::
          l > layer || !(column <= c < column + tokens) ==> mapping[l, c] == old(mapping[l, c])
      {
        mapping[layer, column + token] := TokenSlot(baseRows, blockTokens, layer, token);
      }
    }
  }
}
