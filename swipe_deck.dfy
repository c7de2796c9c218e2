/**
 * The `SwipeDeck` component: the visible stack, the swipe feedback banner, the
 * forwarding of committed swipes and the choice of what to render.
 */
module SwipeDeck {
  import opened Wrappers
  import opened Listing

  /** The directions the gesture library reports. */
  datatype Direction = Left | Right | Up | Down

  /** The `swipeMessages` table, with `|| ""` for directions it has no entry for. */
  function SwipeMessage(d: Direction): (m: string)
    ensures m != "" <==> d == Left || d == Right
  {
    match d
    case Left => "No es para mí"
    case Right => "¡Me gusta!"
    case _ => ""
  }

  /** The transient banner shown after a swipe. */
  datatype Feedback = Feedback(direction: Direction, message: string, listing: Listing)

  /** One call of the `onSwipe` callback. */
  datatype SwipeEvent = SwipeEvent(direction: Direction, listing: Listing)

  /** The card stack: `[...listings].reverse()`. */
  function Stack(listings: seq<Listing>): (r: seq<Listing>)
    ensures |r| == |listings|
    ensures forall i :: 0 <= i < |r| ==> r[i] == listings[|listings| - 1 - i]
  {
    if listings == [] then [] else Stack(listings[1..]) + [listings[0]]
  }

  /** Reversing the stack gives back the window. */
  lemma StackInvolution(listings: seq<Listing>)
    ensures Stack(Stack(listings)) == listings
  {
    var r := Stack(Stack(listings));
    forall i | 0 <= i < |listings| ensures r[i] == listings[i] {
      assert r[i] == Stack(listings)[|listings| - 1 - i];
    }
  }

  /** The stack holds the same listings as the window, as often as the window does. */
  lemma {:induction false} StackSameListings(listings: seq<Listing>)
    ensures multiset(Stack(listings)) == multiset(listings)
  {
    if listings != [] {
      StackSameListings(listings[1..]);
      assert listings == [listings[0]] + listings[1..];
    }
  }

  /** What the component renders. */
  datatype Screen =
    | LoadingScreen
    | ErrorScreen(message: string)
    | EmptyScreen
    | DeckScreen(cards: seq<Listing>, banner: Option<Feedback>)

  /** `if (error)` on an error message: null and "" are falsy. */
  predicate IsTruthy(error: Option<string>) {
    error.Some? && error.value != ""
  }

  /** Loading wins over an error, an error over an empty stack, and only then the deck is shown. */
  function Render(listings: seq<Listing>, loading: bool, error: Option<string>, lastSwipe: Option<Feedback>): (v: Screen)
    ensures v == LoadingScreen <==> loading
    ensures v.ErrorScreen? <==> !loading && IsTruthy(error)
    ensures v.ErrorScreen? ==> error == Some(v.message)
    ensures v == EmptyScreen <==> !loading && !IsTruthy(error) && listings == []
    ensures v.DeckScreen? ==> v.cards != [] && v.cards == Stack(listings) && v.banner == lastSwipe
  {
    var stack := Stack(listings);
    if loading then LoadingScreen
    else if IsTruthy(error) then ErrorScreen(error.value)
    else if |stack| == 0 then EmptyScreen
    else DeckScreen(stack, lastSwipe)
  }

  class Deck {
    /** The `lastSwipe` state. */
    var lastSwipe: Option<Feedback>

    constructor ()
      ensures lastSwipe == None
    {
      lastSwipe := None;
    }

    /**
     * `handleSwipe`: records the feedback banner, replacing any earlier one, and
     * forwards the swipe once to `onSwipe` when the parent passed one.
     */
    method HandleSwipe(direction: Direction, listing: Listing, hasOnSwipe: bool) returns (forwarded: seq<SwipeEvent>)
      modifies this
      ensures lastSwipe == Some(Feedback(direction, SwipeMessage(direction), listing))
      ensures forwarded == if hasOnSwipe then [SwipeEvent(direction, listing)] else []
    {
      lastSwipe := Some(Feedback(direction, SwipeMessage(direction), listing));
      forwarded := if hasOnSwipe then [SwipeEvent(direction, listing)] else [];
    }

    /** A card's `onSwipe`: up and down are prevented and never reach `handleSwipe`. */
    method CardSwiped(direction: Direction, listing: Listing, hasOnSwipe: bool) returns (forwarded: seq<SwipeEvent>)
      modifies this
      ensures direction == Up || direction == Down ==> forwarded == [] && lastSwipe == old(lastSwipe)
      ensures direction == Left || direction == Right ==>
        && lastSwipe == Some(Feedback(direction, SwipeMessage(direction), listing))
        && lastSwipe.value.message != ""
        && forwarded == if hasOnSwipe then [SwipeEvent(direction, listing)] else []
    {
      if direction == Up || direction == Down {
        forwarded := [];
      } else {
        forwarded := HandleSwipe(direction, listing, hasOnSwipe);
      }
    }

    /** The banner timer running out. */
    method ExpireFeedback()
      modifies this
      ensures lastSwipe == None
    {
      lastSwipe := None;
    }
  }
}
