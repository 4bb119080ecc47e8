/**
 * The home screen: the lesson path, where every catalog lesson is shown as
 * completed, next (unlocked but not completed) or locked; the counters
 * derived from the number of completed lessons; and the bonus chest, whose
 * reward dialog opens only once every lesson is completed.
 */
module HomeView {
  import opened Types
  import opened Catalog
  import opened App

  /** How a lesson node is drawn and what clicking it does (components/HomeView.tsx:150-152). */
  datatype NodeStatus = Completed | Next | Locked

  /**
   * The status of the node for lesson `id` (components/HomeView.tsx:150-152):
   * completed wins over unlocked, and a lesson in neither list is locked.
   */
  function Status(completed: seq<string>, unlocked: seq<string>, id: string): NodeStatus
  {
    if id in completed then Completed
    else if id in unlocked then Next
    else Locked
  }

  /**
   * What clicking a node asks for (components/HomeView.tsx:157-199): a completed or next
   * lesson is opened on the lesson screen; a locked one only shows an alert.
   */
  function NodeClick(status: NodeStatus, id: string): Option<string>
  {
    match status
    case Completed => Some(id)
    case Next => Some(id)
    case Locked => None
  }

  /** The horizontal offset of the node at `index` on the winding path (components/HomeView.tsx:15-29). */
  function PositionClass(index: nat): string
  {
    match index % 4
    case 0 => ""
    case 1 => "-ml-16"
    case 2 => "ml-16"
    case _ => ""
  }

  /**
   * The path repeats every four nodes, uses only the centre and the two side
   * offsets, and never puts two neighbouring nodes on the same side.
   */
  lemma PositionClassPattern(index: nat)
    ensures PositionClass(index + 4) == PositionClass(index)
    ensures PositionClass(index) in {"", "-ml-16", "ml-16"}
    ensures PositionClass(index) != "" ==> PositionClass(index + 1) != PositionClass(index)
  {
  }

  /** The bonus chest opens when as many lessons are completed as the catalog holds (components/HomeView.tsx:13). */
  predicate IsBonusUnlocked(completed: seq<string>, catalog: seq<Lesson>)
  {
    |completed| == |catalog|
  }

  /** The streak counter: twelve per completed lesson (components/HomeView.tsx:55). */
  function StreakCount(completed: seq<string>): int
  {
    |completed| * 12
  }

  /** The gem counter: one hundred and fifty per completed lesson (components/HomeView.tsx:61). */
  function GemCount(completed: seq<string>): int
  {
    |completed| * 150
  }

  /** The pet card's title (components/HomeView.tsx:91). */
  function EvolutionTitle(completed: seq<string>, catalog: seq<Lesson>): string
  {
    if |completed| == |catalog| then "Sparky is Fully Evolved!" else "Sparky is Evolving"
  }

  /**
   * Under the linear progress shape a node's status is fixed by its position:
   * the completed prefix, then the single next lesson, then locked lessons.
   */
  lemma StatusByPosition(catalog: seq<Lesson>, p: Progress, i: int)
    requires DistinctIds(catalog)
    requires Linear(Ids(catalog), p)
    requires 0 <= i < |catalog|
    ensures Status(p.completed, p.unlocked, catalog[i].id) ==
      if i < |p.completed| then Completed else if i < |p.unlocked| then Next else Locked
  {
    var ids := Ids(catalog);
    IdsOfDistinct(catalog);
    LinearIsPrefixSplit(ids, p);
    assert ids[i] == catalog[i].id;
    InPrefixOfDistinct(ids, |p.completed|, i);
    InPrefixOfDistinct(ids, |p.unlocked|, i);
  }

  /**
   * Under the linear shape at most one node is the next lesson, and there is
   * one exactly when some lesson is still not completed.
   */
  lemma {:induction false} OneNextNode(catalog: seq<Lesson>, p: Progress)
    requires DistinctIds(catalog)
    requires Linear(Ids(catalog), p)
    ensures forall i, j ::
      0 <= i < |catalog| && 0 <= j < |catalog| &&
      Status(p.completed, p.unlocked, catalog[i].id) == Next &&
      Status(p.completed, p.unlocked, catalog[j].id) == Next
      ==> i == j
    ensures (exists i :: 0 <= i < |catalog| && Status(p.completed, p.unlocked, catalog[i].id) == Next)
      <==> |p.completed| < |catalog|
  {
    forall i | 0 <= i < |catalog|
      ensures Status(p.completed, p.unlocked, catalog[i].id) == Next <==> i == |p.completed| && i < |p.unlocked|
    {
      StatusByPosition(catalog, p, i);
    }
    LinearIsPrefixSplit(Ids(catalog), p);
    if |p.completed| < |catalog| {
      assert |p.completed| < |p.unlocked|;
      assert Status(p.completed, p.unlocked, catalog[|p.completed|].id) == Next;
    }
  }

  /**
   * Under the linear shape the chest's count test means what it stands for:
   * it is unlocked exactly when every catalog lesson is completed.
   */
  lemma {:induction false} BonusMeansAllCompleted(catalog: seq<Lesson>, p: Progress)
    requires DistinctIds(catalog)
    requires Linear(Ids(catalog), p)
    ensures IsBonusUnlocked(p.completed, catalog) <==> forall i :: 0 <= i < |catalog| ==> catalog[i].id in p.completed
  {
    LinearIsPrefixSplit(Ids(catalog), p);
    if !IsBonusUnlocked(p.completed, catalog) {
      var k := |p.completed|;
      assert k < |catalog|;
      StatusByPosition(catalog, p, k);
    }
  }

  /**
   * While every completed lesson is unlocked, clicking a node opens its
   * lesson exactly when that lesson is unlocked: the home screen never opens
   * a locked lesson, and opens every unlocked one.
   */
  lemma ClickOpensOnlyUnlocked(p: Progress, id: string)
    requires forall x :: x in p.completed ==> x in p.unlocked
    ensures NodeClick(Status(p.completed, p.unlocked, id), id) == (if id in p.unlocked then Some(id) else None)
  {
    if id in p.completed {
      assert id in p.unlocked;
    }
  }

  /**
   * Under the linear shape the pet card's title says the pet is fully evolved
   * exactly when every catalog lesson is completed.
   */
  lemma EvolutionTitleMeaning(catalog: seq<Lesson>, p: Progress)
    requires DistinctIds(catalog)
    requires Linear(Ids(catalog), p)
    ensures EvolutionTitle(p.completed, catalog) == "Sparky is Fully Evolved!" <==>
      forall i :: 0 <= i < |catalog| ==> catalog[i].id in p.completed
  {
    BonusMeansAllCompleted(catalog, p);
  }

  /** The home screen's own state: whether the bonus dialog is open (components/HomeView.tsx:12). */
  class HomeView {
    var showBonusModal: bool

    /** Mount: the dialog is closed. */
    constructor ()
      ensures !showBonusModal
    {
      showBonusModal := false;
    }

    /**
     * Clicking the chest (components/HomeView.tsx:213): opens the dialog when the bonus
     * is unlocked; otherwise only an alert is shown and nothing changes.
     */
    method ClickBonusChest(completed: seq<string>, catalog: seq<Lesson>)
      modifies this
      ensures showBonusModal == (old(showBonusModal) || IsBonusUnlocked(completed, catalog))
    {
      if IsBonusUnlocked(completed, catalog) {
        showBonusModal := true;
      }
    }

    /** Either close control of the dialog (components/HomeView.tsx:250, 274). */
    method CloseBonusModal()
      modifies this
      ensures !showBonusModal
    {
      showBonusModal := false;
    }
  }
}
