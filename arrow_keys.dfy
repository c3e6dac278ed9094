/** The arrow-key offsets of hw02/hw02.js: two counters, verticalMove and
    horizontalMove, that start at 0, move by one per arrow key and are clamped
    to [-90, 90] after every keydown event.

    The counters are JavaScript numbers, but they start at 0 and only ever
    move by 1 or get reset to +-90, so they are whole numbers and an `int`
    model is exact. */
module ArrowKeys {
  import opened Integers

  /** The clamp limit of both counters. */
  const Bound: int := 90

  /** event.key as the handler distinguishes it: one of the four arrow keys,
      or any other key. */
  datatype Key = ArrowUp | ArrowDown | ArrowLeft | ArrowRight | Other

  /** The event.key values the handler compares against. */
  const ArrowNames: set<string> := {"ArrowUp", "ArrowDown", "ArrowLeft", "ArrowRight"}

  /** The name event.key carries for an arrow key. */
  function KeyName(k: Key): string
    requires k != Other
  {
    match k
    case ArrowUp => "ArrowUp"
    case ArrowDown => "ArrowDown"
    case ArrowLeft => "ArrowLeft"
    case ArrowRight => "ArrowRight"
  }

  /** The handler's comparisons of event.key: a string is an arrow key exactly
      when it is one of the four names, and then it is the key of that name. */
  function KeyOf(name: string): (r: Key)
    ensures r == Other <==> name !in ArrowNames
    ensures r != Other ==> KeyName(r) == name
  {
    if name == "ArrowUp" then ArrowUp
    else if name == "ArrowDown" then ArrowDown
    else if name == "ArrowLeft" then ArrowLeft
    else if name == "ArrowRight" then ArrowRight
    else Other
  }

  /** (verticalMove, horizontalMove) */
  datatype Offsets = Offsets(vertical: int, horizontal: int)

  const Start: Offsets := Offsets(0, 0)

  predicate InRange(o: Offsets) {
    -Bound <= o.vertical <= Bound && -Bound <= o.horizontal <= Bound
  }

  /** How many unit steps apart two offsets are. */
  function Dist(a: Offsets, b: Offsets): nat {
    Abs(a.vertical - b.vertical) + Abs(a.horizontal - b.horizontal)
  }

  /** The clamp the handler applies to each counter: the value in
      [-Bound, Bound] nearest to x, which is x itself when x is already in range. */
  function Clamp(x: int): (r: int)
    ensures -Bound <= r <= Bound
    ensures -Bound <= x <= Bound ==> r == x
  {
    if x > Bound then Bound
    else if x < -Bound then -Bound
    else x
  }

  /** No value in range is closer to x than Clamp(x). */
  lemma ClampIsNearest(x: int, y: int)
    requires -Bound <= y <= Bound
    ensures Abs(Clamp(x) - x) <= Abs(y - x)
  {
  }

  /** The `+=` step of the if/else-if chain: Up and Down move only the
      vertical counter and Left and Right only the horizontal one, each by one
      step; any other key moves nothing. */
  function Move(o: Offsets, key: Key): (r: Offsets)
    ensures key == ArrowUp || key == ArrowDown ==>
      r.horizontal == o.horizontal && (r.vertical == o.vertical + 1 || r.vertical == o.vertical - 1)
    ensures key == ArrowLeft || key == ArrowRight ==>
      r.vertical == o.vertical && (r.horizontal == o.horizontal + 1 || r.horizontal == o.horizontal - 1)
    ensures key == Other ==> r == o
  {
    match key
    case ArrowUp => o.(vertical := o.vertical + 1)
    case ArrowDown => o.(vertical := o.vertical - 1)
    case ArrowLeft => o.(horizontal := o.horizontal - 1)
    case ArrowRight => o.(horizontal := o.horizontal + 1)
    case Other => o
  }

  /** One keydown event: move, then clamp both counters. */
  function KeyStep(o: Offsets, key: Key): (r: Offsets)
    ensures InRange(r)
    ensures InRange(Move(o, key)) ==> r == Move(o, key)
  {
    var m := Move(o, key);
    Offsets(Clamp(m.vertical), Clamp(m.horizontal))
  }

  /** The offsets after a sequence of keydown events, first event first.
      From an in-range state, n events move the counters at most n steps. */
  function Run(o: Offsets, keys: seq<Key>): (r: Offsets)
    ensures InRange(o) ==> Dist(r, o) <= |keys|
    decreases |keys|
  {
    if keys == [] then o
    else
      KeyStepIsOneStep(o, keys[0]);
      Run(KeyStep(o, keys[0]), keys[1..])
  }

  /** From an in-range state one keydown event moves the counters at most one
      step in total. */
  lemma KeyStepIsOneStep(o: Offsets, key: Key)
    ensures InRange(o) ==> Dist(KeyStep(o, key), o) <= 1
  {
  }

  /** Whatever the keys, the counters never leave [-90, 90] once they are in
      it; in particular from the initial (0, 0). */
  lemma {:induction false} RunStaysInRange(o: Offsets, keys: seq<Key>)
    requires InRange(o)
    ensures InRange(Run(o, keys))
    decreases |keys|
  {
    if keys != [] {
      RunStaysInRange(KeyStep(o, keys[0]), keys[1..]);
    }
  }

  /** Events run one after another: the run of a + b continues from the run of a. */
  lemma {:induction false} RunAppend(o: Offsets, a: seq<Key>, b: seq<Key>)
    ensures Run(o, a + b) == Run(Run(o, a), b)
    decreases |a|
  {
    if a != [] {
      assert (a + b)[0] == a[0];
      assert (a + b)[1..] == a[1..] + b;
      RunAppend(KeyStep(o, a[0]), a[1..], b);
    } else {
      assert a + b == b;
    }
  }

  /** Up and Down move verticalMove by one and saturate at the bounds;
      horizontalMove is untouched. */
  lemma VerticalKeys(o: Offsets)
    requires InRange(o)
    ensures KeyStep(o, ArrowUp) == Offsets(Min(o.vertical + 1, Bound), o.horizontal)
    ensures KeyStep(o, ArrowDown) == Offsets(Max(o.vertical - 1, -Bound), o.horizontal)
  {
  }

  /** Right and Left move horizontalMove by one and saturate at the bounds;
      verticalMove is untouched. */
  lemma HorizontalKeys(o: Offsets)
    requires InRange(o)
    ensures KeyStep(o, ArrowRight) == Offsets(o.vertical, Min(o.horizontal + 1, Bound))
    ensures KeyStep(o, ArrowLeft) == Offsets(o.vertical, Max(o.horizontal - 1, -Bound))
  {
  }

  /** Any key but the four arrows changes nothing on a reachable state. */
  lemma OtherKeyIgnored(o: Offsets, name: string)
    requires InRange(o) && name !in ArrowNames
    ensures KeyStep(o, KeyOf(name)) == o
  {
  }

  /** The key that undoes k: Down for Up, Left for Right, and so on. */
  function Opposite(k: Key): Key {
    match k
    case ArrowUp => ArrowDown
    case ArrowDown => ArrowUp
    case ArrowLeft => ArrowRight
    case ArrowRight => ArrowLeft
    case Other => Other
  }

  /** Away from the bound it moves towards, a key followed by its opposite
      restores the offsets. */
  lemma OppositeKeysCancel(o: Offsets, key: Key)
    requires InRange(o) && InRange(Move(o, key))
    ensures KeyStep(KeyStep(o, key), Opposite(key)) == o
  {
    var m := Move(o, key);
    assert KeyStep(o, key) == m;
    match key
    case ArrowUp => assert Move(m, ArrowDown) == o;
    case ArrowDown => assert Move(m, ArrowUp) == o;
    case ArrowLeft => assert Move(m, ArrowRight) == o;
    case ArrowRight => assert Move(m, ArrowLeft) == o;
    case Other => assert Move(m, Other) == o;
  }

  /** The two counters are independent: a vertical and a horizontal key give
      the same offsets in either order. */
  lemma AxesCommute(o: Offsets, v: Key, h: Key)
    requires InRange(o)
    requires v == ArrowUp || v == ArrowDown
    requires h == ArrowLeft || h == ArrowRight
    ensures KeyStep(KeyStep(o, v), h) == KeyStep(KeyStep(o, h), v)
  {
  }

  /** The module-level state of hw02.js and its keydown listener. */
  class KeyboardState {
    var verticalMove: int
    var horizontalMove: int

    function Current(): Offsets
      reads this
    {
      Offsets(verticalMove, horizontalMove)
    }

    ghost predicate Valid()
      reads this
    {
      InRange(Current())
    }

    /** Both counters start at 0, the centred view. */
    constructor ()
      ensures Current() == Start && Valid()
    {
      verticalMove := 0;
      horizontalMove := 0;
    }

    /** The keydown handler; `key` is event.key. */
    method KeyDown(key: string)
      modifies this
      ensures Current() == KeyStep(old(Current()), KeyOf(key))
      ensures Valid()
    {
      if key == "ArrowUp" {
        verticalMove := verticalMove + 1;
      } else if key == "ArrowDown" {
        verticalMove := verticalMove + -1;
      } else if key == "ArrowLeft" {
        horizontalMove := horizontalMove + -1;
      } else if key == "ArrowRight" {
        horizontalMove := horizontalMove + 1;
      }

      if verticalMove > 90 {
        verticalMove := 90;
      } else if verticalMove < -90 {
        verticalMove := -90;
      }

      if horizontalMove > 90 {
        horizontalMove := 90;
      } else if horizontalMove < -90 {
        horizontalMove := -90;
      }
    }
  }
}
