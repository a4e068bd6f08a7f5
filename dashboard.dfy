/** The dashboard page wired to the header, the filters and the add/edit modal.
    Its React state is the class `Page`; the drop handler's `setTimeout`
    callback is an explicit queue of pending timers, fired one at a time. */
module Dashboard {
  import opened Products
  import opened Views

  /** A `setTimeout` callback scheduled by the drop handler and not yet run. */
  datatype Timer = CommitStatus(id: int, target: Status)

  /** The part of the page's state the drop handler reads and writes. */
  datatype Board = Board(products: seq<Product>, animating: set<int>, timers: seq<Timer>)

  /** The drop guard: the dragged id names a product whose status differs from the lane's. */
  predicate Movable(ps: seq<Product>, id: int, target: Status)
  {
    FindById(ps, id).Some? && FindById(ps, id).value.status != target
  }

  /** `handleDrop`: a guarded drop marks the card as animating and schedules
      the status commit; any other drop leaves the board as it was. */
  function Drop(b: Board, id: int, target: Status): (r: Board)
    ensures r.products == b.products
    ensures r == b <==> !Movable(b.products, id, target)
    ensures r != b ==> r.animating == b.animating + {id} && r.timers == b.timers + [CommitStatus(id, target)]
  {
    match FindById(b.products, id)
    case None => b
    case Some(p) =>
      if p.status == target then b
      else b.(animating := b.animating + {p.id}, timers := b.timers + [CommitStatus(p.id, target)])
  }

  /** The timer callback: only `status` of the record changes, and the card
      stops animating. */
  function Fire(b: Board, k: nat): (r: Board)
    requires k < |b.timers|
    ensures |r.products| == |b.products|
    ensures b.timers[k].id !in r.animating && r.animating == b.animating - {b.timers[k].id}
    ensures r.timers == b.timers[..k] + b.timers[k + 1..]
    ensures forall i :: 0 <= i < |b.products| && b.products[i].id != b.timers[k].id ==>
              r.products[i] == b.products[i]
    ensures forall i :: 0 <= i < |b.products| && b.products[i].id == b.timers[k].id ==>
              r.products[i].status == b.timers[k].target &&
              r.products[i].(status := b.products[i].status) == b.products[i]
  {
    var t := b.timers[k];
    Board(SetStatus(b.products, t.id, t.target), b.animating - {t.id}, b.timers[..k] + b.timers[k + 1..])
  }

  /** A full transition of a card that was not animating: after the drop the
      card animates and nothing is mutated yet; after its timer the record has
      the new status and the animating set and the timer queue are back to
      what they were. */
  lemma FullTransition(b: Board, id: int, target: Status)
    requires Movable(b.products, id, target) && id !in b.animating
    ensures var marked := Drop(b, id, target);
            && id in marked.animating && marked.products == b.products
            && |marked.timers| == |b.timers| + 1
            && Fire(marked, |b.timers|) == Board(SetStatus(b.products, id, target), b.animating, b.timers)
  {
    var marked := Drop(b, id, target);
    assert marked.timers[..|b.timers|] == b.timers;
    assert marked.timers[|b.timers| + 1..] == [];
  }

  /** The drop handler does not refuse a second drop of a card that is still
      animating: its commit stays queued after the first timer has already
      taken the card out of the animating set. */
  lemma OverlappingDrops(b: Board, id: int, first: Status, second: Status)
    requires Movable(b.products, id, first) && Movable(b.products, id, second)
    ensures var m1 := Drop(b, id, first);
            var m2 := Drop(m1, id, second);
            && id in m1.animating
            && m2 != m1
            && id !in Fire(m2, |b.timers|).animating
            && CommitStatus(id, second) in Fire(m2, |b.timers|).timers
  {
    var m2 := Drop(Drop(b, id, first), id, second);
    assert m2.timers[|b.timers| + 1] == CommitStatus(id, second);
    assert Fire(m2, |b.timers|).timers[|b.timers|] == CommitStatus(id, second);
  }

  /** The rendered view and the status commit commute: the filter never looks
      at `status`. */
  lemma {:induction false} CommitCommutesWithFilter(ps: seq<Product>, id: int, target: Status,
                                                    search: string, category: string, supplier: string)
    ensures FilteredView(SetStatus(ps, id, target), search, category, supplier)
            == SetStatus(FilteredView(ps, search, category, supplier), id, target)
  {
    if ps != [] {
      CommitCommutesWithFilter(ps[1..], id, target, search, category, supplier);
      var after := SetStatus(ps, id, target);
      assert after == [after[0]] + SetStatus(ps[1..], id, target);
      MatchesIgnoresStatus(ps[0], target, search, category, supplier);
      ViewUnfold(ps, search, category, supplier);
      ViewUnfold(after, search, category, supplier);
      var tail := FilteredView(ps[1..], search, category, supplier);
      if Matches(ps[0], search, category, supplier) {
        var moved := SetStatus([ps[0]] + tail, id, target);
        assert moved == [moved[0]] + SetStatus(tail, id, target);
      }
    }
  }

  /** With unique ids, a committed drop moves exactly one card from its old
      lane to the target lane; the third lane keeps its size. */
  lemma CommitMovesOneCard(ps: seq<Product>, id: int, target: Status)
    requires UniqueIds(ps) && Movable(ps, id, target)
    ensures var source := FindById(ps, id).value.status;
            var after := SetStatus(ps, id, target);
            && |Lane(after, target)| == |Lane(ps, target)| + 1
            && |Lane(after, source)| == |Lane(ps, source)| - 1
            && forall s :: s != source && s != target ==> |Lane(after, s)| == |Lane(ps, s)|
  {
    forall s {
      CommitLaneDelta(ps, id, target, s);
    }
  }

  /** How much a committed drop of a card from `source` to `target` changes
      the size of lane `s`. */
  function LaneDelta(source: Status, target: Status, s: Status): int
  {
    if s == target then 1 else if s == source then -1 else 0
  }

  lemma {:induction false} CommitLaneDelta(ps: seq<Product>, id: int, target: Status, s: Status)
    requires UniqueIds(ps) && Movable(ps, id, target)
    ensures |Lane(SetStatus(ps, id, target), s)|
            == |Lane(ps, s)| + LaneDelta(FindById(ps, id).value.status, target, s)
  {
    var after := SetStatus(ps, id, target);
    assert after[1..] == SetStatus(ps[1..], id, target);
    LaneCount(ps, s);
    LaneCount(after, s);
    if ps[0].id == id {
      assert after[0] == ps[0].(status := target);
      NotFoundAfterFirst(ps, id);
      SetStatusMissing(ps[1..], id, target);
    } else {
      assert after[0] == ps[0];
      assert FindById(ps, id) == FindById(ps[1..], id);
      assert UniqueIds(ps[1..]) by {
        forall i, j | 0 <= i < j < |ps| - 1
          ensures ps[1..][i].id != ps[1..][j].id
        {
          assert ps[1..][i] == ps[i + 1] && ps[1..][j] == ps[j + 1];
        }
      }
      CommitLaneDelta(ps[1..], id, target, s);
    }
  }

  /** The value `JSON.stringify` stores for a boolean. */
  function JsonBool(b: bool): (s: string)
    ensures DarkModeFrom(Some(s)) == b
  {
    if b then "true" else "false"
  }

  /** The initial dark-mode flag: on exactly when the stored value is `"true"`,
      so a first visit, and a stored `"false"`, start in light mode. */
  function DarkModeFrom(stored: Option<string>): (on: bool)
    ensures stored.None? ==> !on
    ensures stored == Some("false") ==> !on
  {
    stored == Some("true")
  }

  /** The id the add/edit modal gives the saved record: the edited record's id
      when it is truthy (non-zero), otherwise the current time. */
  function SubmittedId(initial: Option<Product>, now: int): int
  {
    if initial.Some? && initial.value.id != 0 then initial.value.id else now
  }

  /** Editing a record whose id is 0 saves it under a fresh timestamp, so the
      edit save matches no record and changes nothing. */
  lemma EditOfZeroIdIsLost(ps: seq<Product>, initial: Product, data: Product, now: int)
    requires initial.id == 0 && !HasId(ps, now)
    ensures ReplaceById(ps, data.(id := SubmittedId(Some(initial), now))) == ps
  {
  }

  /** Editing a record with a non-zero id saves it under that id, so with unique
      ids the edit save replaces that record and keeps every other one. */
  lemma EditSavesInPlace(ps: seq<Product>, i: int, data: Product, now: int)
    requires UniqueIds(ps) && 0 <= i < |ps| && ps[i].id != 0
    ensures var saved := data.(id := SubmittedId(Some(ps[i]), now));
            var r := ReplaceById(ps, saved);
            && saved.id == ps[i].id
            && |r| == |ps| && r[i] == saved
            && forall j :: 0 <= j < |ps| && j != i ==> r[j] == ps[j]
  {
  }

  class Page {
    var products: seq<Product>
    var searchTerm: string
    var categoryFilter: string
    var supplierFilter: string
    var animating: set<int>
    var timers: seq<Timer>
    var darkMode: bool
    var editing: Option<Product>
    var showAddForm: bool
    /** The "inventory-products" storage entry, as the list it holds. */
    var storedProducts: Option<seq<Product>>
    /** The "dark-mode" storage entry. */
    var storedDarkMode: Option<string>

    /** The storage effect has run after every change of `products`, and the
        stored flag reproduces the displayed mode. */
    ghost predicate Valid()
      reads this
    {
      storedProducts == Some(products) && darkMode == DarkModeFrom(storedDarkMode)
    }

    function CurrentBoard(): Board
      reads this
    {
      Board(products, animating, timers)
    }

    /** `filteredProducts`, recomputed from the products and the three filters. */
    function View(): (r: seq<Product>)
      reads this
      ensures forall p :: p in r <==> p in products && Matches(p, searchTerm, categoryFilter, supplierFilter)
      ensures searchTerm == "" && categoryFilter == "" && supplierFilter == "" ==> r == products
    {
      EmptyFiltersShowAll(products);
      FilteredView(products, searchTerm, categoryFilter, supplierFilter)
    }

    /** The cards shown in the lane of status `s`. */
    function Cards(s: Status): (r: seq<Product>)
      reads this
      ensures forall p :: p in r <==>
                p in products && Matches(p, searchTerm, categoryFilter, supplierFilter) && p.status == s
    {
      Lane(View(), s)
    }

    /** Mounting the page: the stored list if there is one, else the seed;
        dark mode on exactly when the stored flag is "true". */
    constructor (saved: Option<seq<Product>>, savedDarkMode: Option<string>)
      ensures Valid()
      ensures products == (if saved.Some? then saved.value else Seed())
      ensures searchTerm == "" && categoryFilter == "" && supplierFilter == ""
      ensures animating == {} && timers == []
      ensures darkMode == (savedDarkMode == Some("true")) && storedDarkMode == savedDarkMode
      ensures editing == None && !showAddForm
    {
      products := if saved.Some? then saved.value else Seed();
      searchTerm, categoryFilter, supplierFilter := "", "", "";
      animating, timers := {}, [];
      darkMode := DarkModeFrom(savedDarkMode);
      storedDarkMode := savedDarkMode;
      editing, showAddForm := None, false;
      // the storage effect runs once on mount
      storedProducts := Some(products);
    }

    /** A card dropped on the lane of status `target`. */
    method HandleDrop(id: int, target: Status) returns (accepted: bool)
      requires Valid()
      modifies this`animating, this`timers
      ensures Valid()
      ensures accepted == Movable(old(products), id, target)
      ensures CurrentBoard() == Drop(old(CurrentBoard()), id, target)
    {
      var found := FindById(products, id);
      accepted := found.Some? && found.value.status != target;
      if accepted {
        animating := animating + {found.value.id};
        timers := timers + [CommitStatus(found.value.id, target)];
      }
    }

    /** The pending timer `k` runs: the status commit, then the card leaves
        the animating set; the storage effect follows. */
    method FireTimer(k: nat)
      requires Valid() && k < |timers|
      modifies this`products, this`animating, this`timers, this`storedProducts
      ensures Valid()
      ensures CurrentBoard() == Fire(old(CurrentBoard()), k)
    {
      var t := timers[k];
      timers := timers[..k] + timers[k + 1..];
      products := SetStatus(products, t.id, t.target);
      animating := animating - {t.id};
      storedProducts := Some(products);
    }

    method ToggleDarkMode()
      requires Valid()
      modifies this`darkMode, this`storedDarkMode
      ensures Valid()
      ensures darkMode == !old(darkMode) && storedDarkMode == Some(JsonBool(darkMode))
    {
      var newMode := !darkMode;
      storedDarkMode := Some(JsonBool(newMode));
      darkMode := newMode;
    }

    /** The header's "Add" button opens the add modal. */
    method OpenAddForm()
      modifies this`showAddForm
      ensures showAddForm
    {
      showAddForm := true;
    }

    /** A card's edit button opens the edit modal on that record. */
    method StartEdit(p: Product)
      modifies this`editing
      ensures editing == Some(p)
    {
      editing := Some(p);
    }

    /** The add modal's save: the record is appended and the modal closes. */
    method SaveNew(p: Product)
      requires Valid()
      modifies this`products, this`showAddForm, this`storedProducts
      ensures Valid()
      ensures products == old(products) + [p] && !showAddForm
    {
      products := products + [p];
      showAddForm := false;
      storedProducts := Some(products);
    }

    /** The edit modal's save: records with the saved id are replaced and the
        modal closes. */
    method SaveEdit(p: Product)
      requires Valid()
      modifies this`products, this`editing, this`storedProducts
      ensures Valid()
      ensures products == ReplaceById(old(products), p) && editing == None
    {
      products := ReplaceById(products, p);
      editing := None;
      storedProducts := Some(products);
    }

    /** A file was read; `parsed` is `None` when `JSON.parse` threw. */
    method Import(parsed: Option<seq<Product>>)
      requires Valid()
      modifies this`products, this`storedProducts
      ensures Valid()
      ensures products == (if parsed.Some? then parsed.value else old(products))
    {
      if parsed.Some? {
        products := parsed.value;
        storedProducts := Some(products);
      }
    }

    method Reset()
      requires Valid()
      modifies this`products, this`storedProducts
      ensures Valid()
      ensures products == Seed()
    {
      products := Seed();
      storedProducts := Some(products);
    }

    /** "Clear": the list empties and the storage entry is removed, after which
        the storage effect stores the empty list, so a reload shows no
        products rather than the seed. */
    method Clear()
      requires Valid()
      modifies this`products, this`storedProducts
      ensures Valid()
      ensures products == [] && storedProducts == Some([])
    {
      products := [];
      storedProducts := Some(products);
    }
  }
}
