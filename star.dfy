/**
 * The five-star rating widget: which stars are lit, and the hover state that
 * mouse enter and leave update.
 */
module Star {

  /** A browser click event, opaque to this model. */
  datatype ClickEvent = ClickEvent(id: int)

  /** The arguments with which a star's click handler calls `onRate`. */
  datatype OnRateCall = OnRateCall(event: ClickEvent, star: int)

  /** One rendered star: its number and whether it is drawn in gold. */
  datatype StarView = StarView(star: int, lit: bool)

  /** `renderStars`: five spans, star `k` lit iff `k <= (hoverRating || currentRating)`. */
  function RenderStars(hoverRating: int, currentRating: real): (stars: seq<StarView>)
    ensures |stars| == 5
    ensures forall i :: 0 <= i < 5 ==> stars[i].star == i + 1
    ensures hoverRating != 0 ==> forall i :: 0 <= i < 5 ==> (stars[i].lit <==> stars[i].star <= hoverRating)
    ensures hoverRating == 0 ==> forall i :: 0 <= i < 5 ==> (stars[i].lit <==> stars[i].star as real <= currentRating)
  {
    var threshold := if hoverRating != 0 then hoverRating as real else currentRating;
    seq(5, i => StarView(i + 1, (i + 1) as real <= threshold))
  }

  /** Lit stars form a prefix: a lit star has every lower-numbered star lit too. */
  lemma LitStarsFormPrefix(hoverRating: int, currentRating: real, j: nat, k: nat)
    requires j < k < 5
    requires RenderStars(hoverRating, currentRating)[k].lit
    ensures RenderStars(hoverRating, currentRating)[j].lit
  {
  }

  /** While the mouse rests on star `h`, exactly the first `h` stars are lit. */
  lemma HoverLightsExactly(h: int, currentRating: real)
    requires 1 <= h <= 5
    ensures forall i :: 0 <= i < 5 ==> (RenderStars(h, currentRating)[i].lit <==> i < h)
  {
  }

  /** The Star component, with its `hoverRating` state. */
  class StarRating {
    const currentRating: real
    var hoverRating: int

    /** The constructor's `this.state = { hoverRating: 0 }`. */
    constructor (currentRating: real)
      ensures this.currentRating == currentRating
      ensures hoverRating == 0
    {
      this.currentRating := currentRating;
      hoverRating := 0;
    }

    /** The stars as currently rendered. */
    function Stars(): (stars: seq<StarView>)
      reads this
      ensures |stars| == 5
      ensures hoverRating == 0 ==> forall i :: 0 <= i < 5 ==> (stars[i].lit <==> (i + 1) as real <= currentRating)
    {
      RenderStars(hoverRating, currentRating)
    }

    /** `setHoverRating` */
    method SetHoverRating(rating: int)
      modifies this
      ensures hoverRating == rating
    {
      hoverRating := rating;
    }

    /** `onMouseEnter` of star `star`. */
    method MouseEnter(star: int)
      requires 1 <= star <= 5
      modifies this
      ensures hoverRating == star
    {
      SetHoverRating(star);
    }

    /** `onMouseLeave` of any star. */
    method MouseLeave()
      modifies this
      ensures hoverRating == 0
    {
      SetHoverRating(0);
    }

    /** `onClick` of star `star`: calls `onRate(event, star)` and changes no state. */
    method Click(event: ClickEvent, star: int) returns (call: OnRateCall)
      requires 1 <= star <= 5
      ensures call.event == event && call.star == star
    {
      call := OnRateCall(event, star);
    }
  }
}
