/** The older all-in-one inventory dashboard. It keeps the same product list,
    filters and lanes as the dashboard page, but its drop handler also
    rewrites the quantity, and it takes the card out of the animating set in a
    second, nested timer. Its add form checks the required fields itself. */
module Legacy {
  import opened Text
  import opened Sequences
  import opened Products
  import opened Views
  import Dashboard

  /** A `setTimeout` callback scheduled by the drop handler and not yet run:
      the commit (first timer) or the unmarking (nested second timer). */
  datatype Timer = CommitMove(id: int, target: Status) | ClearAnimating(id: int)

  /** The part of the dashboard's state the drop handler reads and writes. */
  datatype Board = Board(products: seq<Product>, animating: set<int>, timers: seq<Timer>)

  /** The quantity a record is given when the quantity fits its status. */
  predicate QuantityFits(p: Product)
  {
    match p.status
    case InStock => 20 <= p.quantity <= 59
    case LowStock => 1 <= p.quantity <= 5
    case OutOfStock => p.quantity == 0
  }

  /** `getQuantityByStatus`; `random` is the value of `Math.random()`. */
  function QuantityByStatus(s: Status, random: real): (q: int)
    requires 0.0 <= random < 1.0
    ensures s == InStock ==> 20 <= q <= 59
    ensures s == LowStock ==> 1 <= q <= 5
    ensures s == OutOfStock ==> q == 0
  {
    match s
    case InStock => (random * 40.0).Floor + 20
    case LowStock => (random * 5.0).Floor + 1
    case OutOfStock => 0
  }

  /** The drop commit of this dashboard: status and quantity change together. */
  function Restock(ps: seq<Product>, id: int, target: Status, quantity: int): (r: seq<Product>)
    ensures |r| == |ps|
    ensures forall i :: 0 <= i < |ps| && ps[i].id != id ==> r[i] == ps[i]
    ensures forall i :: 0 <= i < |ps| && ps[i].id == id ==>
              r[i] == ps[i].(status := target, quantity := quantity)
  {
    UpdateWhere(ps, id, (p: Product) => p.(status := target, quantity := quantity))
  }

  /** The two commits differ only in the quantity of the moved record: ids,
      names, categories, suppliers and statuses agree everywhere. */
  lemma CommitsDifferOnlyInQuantity(ps: seq<Product>, id: int, target: Status, quantity: int)
    ensures |Restock(ps, id, target, quantity)| == |SetStatus(ps, id, target)|
    ensures forall i :: 0 <= i < |ps| ==>
              Restock(ps, id, target, quantity)[i]
              == SetStatus(ps, id, target)[i].(quantity := if ps[i].id == id then quantity else ps[i].quantity)
  {
  }

  /** After the commit the moved record's quantity fits its new status. */
  lemma CommitQuantityFitsStatus(ps: seq<Product>, id: int, target: Status, random: real)
    requires 0.0 <= random < 1.0
    ensures forall i :: 0 <= i < |ps| && ps[i].id == id ==>
              QuantityFits(Restock(ps, id, target, QuantityByStatus(target, random))[i])
  {
  }

  /** `handleDrop`: the same guard as the dashboard page; an effective drop
      marks the card and schedules the commit. */
  function Drop(b: Board, id: int, target: Status): (r: Board)
    ensures r.products == b.products
    ensures r == b <==> !Dashboard.Movable(b.products, id, target)
    ensures r != b ==> r.animating == b.animating + {id} && r.timers == b.timers + [CommitMove(id, target)]
  {
    match FindById(b.products, id)
    case None => b
    case Some(p) =>
      if p.status == target then b
      else b.(animating := b.animating + {p.id}, timers := b.timers + [CommitMove(p.id, target)])
  }

  /** A pending timer runs. The commit rewrites status and quantity and
      schedules the unmarking; the unmarking takes the card out of the
      animating set. `random` is the `Math.random()` drawn by the commit. */
  function Fire(b: Board, k: nat, random: real): (r: Board)
    requires k < |b.timers| && 0.0 <= random < 1.0
    ensures |r.products| == |b.products|
    ensures b.timers[k].CommitMove? ==>
              && r.animating == b.animating
              && r.timers == b.timers[..k] + b.timers[k + 1..] + [ClearAnimating(b.timers[k].id)]
              && r.products == Restock(b.products, b.timers[k].id, b.timers[k].target,
                                       QuantityByStatus(b.timers[k].target, random))
    ensures b.timers[k].ClearAnimating? ==>
              && r.products == b.products
              && r.animating == b.animating - {b.timers[k].id}
              && r.timers == b.timers[..k] + b.timers[k + 1..]
  {
    var rest := b.timers[..k] + b.timers[k + 1..];
    match b.timers[k]
    case CommitMove(id, target) =>
      Board(Restock(b.products, id, target, QuantityByStatus(target, random)), b.animating,
            rest + [ClearAnimating(id)])
    case ClearAnimating(id) =>
      Board(b.products, b.animating - {id}, rest)
  }

  /** A full transition of a card that was not animating runs in three steps,
      and the mutation happens strictly inside the animating window: after the
      drop the card animates and nothing has changed; after the commit the
      record is moved and restocked while the card still animates; after the
      unmarking the animating set and the timer queue are what they were. */
  lemma FullTransition(b: Board, id: int, target: Status, random: real, random': real)
    requires Dashboard.Movable(b.products, id, target) && id !in b.animating
    requires 0.0 <= random < 1.0 && 0.0 <= random' < 1.0
    ensures var marked := Drop(b, id, target);
            && id in marked.animating && marked.products == b.products
            && |marked.timers| == |b.timers| + 1
            && var committed := Fire(marked, |b.timers|, random);
               && id in committed.animating
               && committed.products == Restock(b.products, id, target, QuantityByStatus(target, random))
               && committed.timers == b.timers + [ClearAnimating(id)]
               && Fire(committed, |b.timers|, random') == Board(committed.products, b.animating, b.timers)
  {
    var marked := Drop(b, id, target);
    assert marked.timers[..|b.timers|] == b.timers;
    assert marked.timers[|b.timers| + 1..] == [];
    var committed := Fire(marked, |b.timers|, random);
    assert committed.timers[..|b.timers|] == b.timers;
    assert committed.timers[|b.timers| + 1..] == [];
  }

  /** The filter of this dashboard, written as its three named parts. */
  predicate MatchesSearch(p: Product, search: string)
  {
    Includes(ToLower(p.name), ToLower(search))
  }

  predicate MatchesCategory(p: Product, category: string)
  {
    category == "" || p.category == category
  }

  predicate MatchesSupplier(p: Product, supplier: string)
  {
    supplier == "" || p.supplier == supplier
  }

  function LegacyView(ps: seq<Product>, search: string, category: string, supplier: string): (r: seq<Product>)
    ensures forall p :: p in r <==>
              p in ps && MatchesSearch(p, search) && MatchesCategory(p, category) && MatchesSupplier(p, supplier)
    ensures forall p :: multiset(r)[p] ==
              if MatchesSearch(p, search) && MatchesCategory(p, category) && MatchesSupplier(p, supplier)
              then multiset(ps)[p] else 0
    ensures IsSubsequence(r, ps)
  {
    Filter(ps, (p: Product) => MatchesSearch(p, search) && MatchesCategory(p, category) && MatchesSupplier(p, supplier))
  }

  /** Both dashboards show the same filtered list. */
  lemma {:induction false} SameViewAsPage(ps: seq<Product>, search: string, category: string, supplier: string)
    ensures LegacyView(ps, search, category, supplier) == FilteredView(ps, search, category, supplier)
  {
    if ps != [] {
      SameViewAsPage(ps[1..], search, category, supplier);
      ViewUnfold(ps, search, category, supplier);
      var keep := (p: Product) => MatchesSearch(p, search) && MatchesCategory(p, category) && MatchesSupplier(p, supplier);
      assert Filter(ps, keep) == (if keep(ps[0]) then [ps[0]] else []) + Filter(ps[1..], keep);
    }
  }

  /** The number on a status card: `products.filter(p => p.status === s).length`. */
  function StatusCount(ps: seq<Product>, s: Status): (n: nat)
    ensures n <= |ps|
  {
    |Lane(ps, s)|
  }

  /** The three status cards add up to the "Total Products" card. */
  lemma StatusCountsSum(ps: seq<Product>)
    ensures StatusCount(ps, InStock) + StatusCount(ps, LowStock) + StatusCount(ps, OutOfStock) == |ps|
  {
    LaneSizes(ps);
  }

  /** The add form's contents (`newProduct`). */
  datatype Draft = Draft(name: string, category: string, quantity: int, supplier: string, status: Status)

  /** The add form when empty: it cannot be added as it stands. */
  function EmptyDraft(): (d: Draft)
    ensures forall ps: seq<Product>, now: int :: AddDraft(ps, d, now) == ps
  {
    Draft("", "", 0, "", InStock)
  }

  /** `parseInt(text) || 0`: `parsed` is `None` when the text is not a number. */
  function OrZero(parsed: Option<int>): int
  {
    if parsed.Some? then parsed.value else 0
  }

  /** The list after `addNewProduct`: unchanged when a required field is empty,
      otherwise one record carrying the draft's fields and id `now` appended. */
  function AddDraft(ps: seq<Product>, d: Draft, now: int): (r: seq<Product>)
    ensures d.name == "" || d.category == "" || d.supplier == "" ==> r == ps
    ensures d.name != "" && d.category != "" && d.supplier != "" ==>
              && |r| == |ps| + 1 && r[..|ps|] == ps
              && r[|ps|] == Product(now, d.name, d.category, d.quantity, d.supplier, d.status)
  {
    if d.name != "" && d.category != "" && d.supplier != "" then
      ps + [Product(now, d.name, d.category, d.quantity, d.supplier, d.status)]
    else ps
  }

  /** A timestamp not yet used as an id keeps ids unique through an add. */
  lemma AddKeepsIdsUnique(ps: seq<Product>, d: Draft, now: int)
    requires UniqueIds(ps) && !HasId(ps, now)
    ensures UniqueIds(AddDraft(ps, d, now))
  {
    if d.name != "" && d.category != "" && d.supplier != "" {
      AppendFresh(ps, Product(now, d.name, d.category, d.quantity, d.supplier, d.status));
    }
  }

  class Inventory {
    var products: seq<Product>
    var searchTerm: string
    var categoryFilter: string
    var supplierFilter: string
    var animating: set<int>
    var timers: seq<Timer>
    var darkMode: bool
    var editing: Option<Product>
    var showAddForm: bool
    var draft: Draft
    /** The "inventory-products" storage entry, as the list it holds. */
    var storedProducts: Option<seq<Product>>

    /** The storage effect has run after every change of `products`. */
    ghost predicate Valid()
      reads this
    {
      storedProducts == Some(products)
    }

    function CurrentBoard(): Board
      reads this
    {
      Board(products, animating, timers)
    }

    function View(): (r: seq<Product>)
      reads this
      ensures forall p :: p in r <==> p in products && Matches(p, searchTerm, categoryFilter, supplierFilter)
    {
      SameViewAsPage(products, searchTerm, categoryFilter, supplierFilter);
      LegacyView(products, searchTerm, categoryFilter, supplierFilter)
    }

    /** After mounting: the stored list if there is one, else the seed; dark
        mode follows the system preference. */
    constructor (saved: Option<seq<Product>>, prefersDark: bool)
      ensures Valid()
      ensures products == (if saved.Some? then saved.value else Seed())
      ensures searchTerm == "" && categoryFilter == "" && supplierFilter == ""
      ensures animating == {} && timers == []
      ensures darkMode == prefersDark
      ensures editing == None && !showAddForm && draft == EmptyDraft()
    {
      products := if saved.Some? then saved.value else Seed();
      searchTerm, categoryFilter, supplierFilter := "", "", "";
      animating, timers := {}, [];
      darkMode := prefersDark;
      editing, showAddForm, draft := None, false, EmptyDraft();
      storedProducts := Some(products);
    }

    method ToggleDarkMode()
      modifies this`darkMode
      ensures darkMode == !old(darkMode)
    {
      darkMode := !darkMode;
    }

    method HandleDrop(id: int, target: Status) returns (accepted: bool)
      requires Valid()
      modifies this`animating, this`timers
      ensures Valid()
      ensures accepted == Dashboard.Movable(old(products), id, target)
      ensures CurrentBoard() == Drop(old(CurrentBoard()), id, target)
    {
      var found := FindById(products, id);
      accepted := found.Some? && found.value.status != target;
      if accepted {
        animating := animating + {found.value.id};
        timers := timers + [CommitMove(found.value.id, target)];
      }
    }

    /** The pending timer `k` runs; a commit draws `random` from `Math.random()`. */
    method FireTimer(k: nat, random: real)
      requires Valid() && k < |timers| && 0.0 <= random < 1.0
      modifies this`products, this`animating, this`timers, this`storedProducts
      ensures Valid()
      ensures CurrentBoard() == Fire(old(CurrentBoard()), k, random)
    {
      var t := timers[k];
      var rest := timers[..k] + timers[k + 1..];
      match t
      case CommitMove(id, target) =>
        products := Restock(products, id, target, QuantityByStatus(target, random));
        timers := rest + [ClearAnimating(id)];
        storedProducts := Some(products);
      case ClearAnimating(id) =>
        animating := animating - {id};
        timers := rest;
    }

    /** `handleEdit`: the edit form opens on a copy of the record. */
    method HandleEdit(p: Product)
      modifies this`editing
      ensures editing == Some(p)
    {
      editing := Some(p);
    }

    /** `handleSave`: with a record being edited, records with its id are
        replaced and the edit form closes; otherwise nothing happens. */
    method HandleSave()
      requires Valid()
      modifies this`products, this`editing, this`storedProducts
      ensures Valid()
      ensures products == (if old(editing).Some? then ReplaceById(old(products), old(editing).value) else old(products))
      ensures editing == None
    {
      if editing.Some? {
        products := ReplaceById(products, editing.value);
        editing := None;
        storedProducts := Some(products);
      }
    }

    /** The quantity input of the add form. */
    method SetDraftQuantity(parsed: Option<int>)
      modifies this`draft
      ensures draft == old(draft).(quantity := OrZero(parsed))
    {
      draft := draft.(quantity := OrZero(parsed));
    }

    /** `addNewProduct`; `now` is `Date.now()`. */
    method AddNewProduct(now: int) returns (added: bool)
      requires Valid()
      modifies this`products, this`draft, this`showAddForm, this`storedProducts
      ensures Valid()
      ensures added <==> old(draft).name != "" && old(draft).category != "" && old(draft).supplier != ""
      ensures products == AddDraft(old(products), old(draft), now)
      ensures added ==> draft == EmptyDraft() && !showAddForm
      ensures !added ==> draft == old(draft) && showAddForm == old(showAddForm)
    {
      added := draft.name != "" && draft.category != "" && draft.supplier != "";
      if added {
        products := AddDraft(products, draft, now);
        draft := EmptyDraft();
        showAddForm := false;
        storedProducts := Some(products);
      }
    }

    /** The add form's "Cancel": the form closes and the draft is emptied. */
    method CancelAdd()
      modifies this`draft, this`showAddForm
      ensures draft == EmptyDraft() && !showAddForm
    {
      showAddForm := false;
      draft := EmptyDraft();
    }

    /** A file was read; `parsed` is `None` when `JSON.parse` threw. */
    method ImportData(parsed: Option<seq<Product>>)
      requires Valid()
      modifies this`products, this`storedProducts
      ensures Valid()
      ensures products == (if parsed.Some? then parsed.value else old(products))
    {
      if parsed.Some? {
        products := parsed.value;
        storedProducts := Some(products);
      }
    }

    /** `clearData`; `confirmed` is the answer to the confirmation dialog. The
        storage entry is removed, and the storage effect then stores `[]`. */
    method ClearData(confirmed: bool)
      requires Valid()
      modifies this`products, this`storedProducts
      ensures Valid()
      ensures products == (if confirmed then [] else old(products))
    {
      if confirmed {
        products := [];
        storedProducts := Some(products);
      }
    }

    /** `resetToDefault`; `confirmed` is the answer to the confirmation dialog. */
    method ResetToDefault(confirmed: bool)
      requires Valid()
      modifies this`products, this`storedProducts
      ensures Valid()
      ensures products == (if confirmed then Seed() else old(products))
    {
      if confirmed {
        products := Seed();
        storedProducts := Some(products);
      }
    }
  }
}
