/** The sample `Banana` class and its red subclass. The subclass is a
    variety tag on one class: it changes the colour list, the class name in
    messages and what `set_color` does. */
module Bananas {
  import opened Common

  datatype Variety = Plain | Red

  const PlainColors := ["green", "green-yellow", "yellow", "brown spotted", "black"]
  const RedColors := ["green", "orange", "red", "brown", "black"]
  const RipeColors := ["yellow", "brown spotted"]
  const CaloriesPerBanana := 105

  /** The class attribute `colors`, as the variety overrides it. */
  function Colors(variety: Variety): seq<string> {
    match variety
    case Plain => PlainColors
    case Red => RedColors
  }

  function ClassName(variety: Variety): string {
    match variety
    case Plain => "Banana"
    case Red => "RedBanana"
  }

  /** `check_color`: the colour is one of the class's colours. */
  predicate CheckColor(variety: Variety, color: string) {
    color in Colors(variety)
  }

  /** Both varieties can be green, so `make_greenie` never raises. */
  lemma GreenIsAlwaysValid(variety: Variety)
    ensures CheckColor(variety, "green")
  {
    assert Colors(variety)[0] == "green";
  }

  /** `estimate_calories`: 105 calories a banana. */
  function EstimateCalories(numBananas: int): (r: int)
    ensures numBananas >= 0 ==> r >= 0
    ensures numBananas > 0 ==> r >= numBananas
    ensures numBananas == 1 ==> r == CaloriesPerBanana
  {
    numBananas * CaloriesPerBanana
  }

  /** The estimate is additive: two bunches are estimated as their sum. */
  lemma {:induction false} CaloriesAdd(a: int, b: int)
    ensures EstimateCalories(a + b) == EstimateCalories(a) + EstimateCalories(b)
  {
    assert (a + b) * CaloriesPerBanana == a * CaloriesPerBanana + b * CaloriesPerBanana;
  }

  /** The message `__init__` raises for a colour outside the class's list. */
  function InitError(variety: Variety, color: string): string {
    "A " + ClassName(variety) + " cannot be " + color
  }

  /** The message `set_color` raises for a colour outside the list. */
  function SetColorError(variety: Variety, color: string): string {
    match variety
    case Plain => "A banana cannot be " + color + "!"
    case Red => "A Red Banana cannot be " + color + "!"
  }

  class Banana {
    const variety: Variety
    var color: string
    var peeled: bool

    /** Every banana has one of its class's colours. */
    predicate Valid()
      reads this
    {
      CheckColor(variety, color)
    }

    /** The body of `__init__` once the colour has passed the check. */
    constructor (variety: Variety, color: string)
      requires CheckColor(variety, color)
      ensures Valid()
      ensures this.variety == variety && this.color == color && !peeled
    {
      this.variety := variety;
      this.color := color;
      peeled := false;
    }

    /** `_is_ripe`. */
    predicate IsRipe()
      reads this
    {
      color in RipeColors
    }

    /** `can_eat`: refused only when ripeness is demanded and the banana
        is not ripe. */
    function CanEat(mustBeRipe: bool): (r: bool)
      reads this
      ensures !r <==> mustBeRipe && color != "yellow" && color != "brown spotted"
    {
      !(mustBeRipe && !IsRipe())
    }

    /** `peel`; the red banana's override only adds a printed line. */
    method Peel()
      modifies this
      ensures peeled && color == old(color)
    {
      peeled := true;
    }

    /** `set_color`: a plain banana takes the colour iff it is in the list
        and raises otherwise; a red banana never changes colour and raises
        only for a colour outside the red list. */
    method SetColor(newColor: string) returns (err: Option<string>)
      requires Valid()
      modifies this
      ensures Valid() && peeled == old(peeled)
      ensures err.Some? <==> !CheckColor(variety, newColor)
      ensures err.Some? ==> err.value == SetColorError(variety, newColor)
      ensures variety == Plain ==> color == (if err.None? then newColor else old(color))
      ensures variety == Red ==> color == old(color)
    {
      match variety
      case Plain =>
        if newColor in PlainColors {
          color := newColor;
          err := None;
        } else {
          err := Some(SetColorError(Plain, newColor));
        }
      case Red =>
        if newColor !in RedColors {
          err := Some(SetColorError(Red, newColor));
        } else {
          err := None;
        }
    }
  }

  /** `Banana(color)` / `RedBanana(color)`: a new banana, or the `ValueError`
      for a colour outside the class's list. */
  method NewBanana(variety: Variety, color: string) returns (r: Result<Banana, string>)
    ensures r.Ok? <==> CheckColor(variety, color)
    ensures r.Err? ==> r.error == InitError(variety, color)
    ensures r.Ok? ==> fresh(r.value) && r.value.Valid()
    ensures r.Ok? ==> r.value.variety == variety && r.value.color == color && !r.value.peeled
  {
    if !CheckColor(variety, color) {
      return Err(InitError(variety, color));
    }
    var b := new Banana(variety, color);
    return Ok(b);
  }

  /** `make_greenie`: a new, unpeeled green banana of the class. */
  method MakeGreenie(variety: Variety) returns (b: Banana)
    ensures fresh(b) && b.Valid()
    ensures b.variety == variety && b.color == "green" && !b.peeled
  {
    GreenIsAlwaysValid(variety);
    var made := NewBanana(variety, "green");
    b := made.value;
    var err := b.SetColor("green");
  }
}
