/** One day button of a stamp tracker (src/components/stamp.tsx): it starts
    unstamped, each click flips it, and its aria attributes, icon and day number
    follow the state. */
module StampButton {
  import opened NumberText

  /** The `aria-label` of the button of `day` in the given state. */
  function StampAriaLabel(day: int, isStamped: bool): string {
    "Day " + IntText(day) + ", " + (if isStamped then "stamped" else "unstamped")
  }

  /** The first ',' of a label directly follows the day number. */
  lemma CommaPosition(day: int, isStamped: bool, k: int)
    ensures var l := StampAriaLabel(day, isStamped);
            var n := |IntText(day)|;
            |l| > 4 + n && l[4 + n] == ',' && (4 <= k < 4 + n ==> l[k] != ',')
  {
    var l := StampAriaLabel(day, isStamped);
    var n := |IntText(day)|;
    if 4 <= k < 4 + n {
      assert l[k] == IntText(day)[k - 4];
      if k > 4 { assert IsDigit(IntText(day)[k - 4]); }
    }
  }

  /** Different buttons or states never share a label: the label names the day and
      the state. */
  lemma AriaLabelInjective(day1: int, stamped1: bool, day2: int, stamped2: bool)
    requires StampAriaLabel(day1, stamped1) == StampAriaLabel(day2, stamped2)
    ensures day1 == day2 && stamped1 == stamped2
  {
    var a, b := IntText(day1), IntText(day2);
    var l := StampAriaLabel(day1, stamped1);
    assert l == StampAriaLabel(day2, stamped2);
    if |a| < |b| {
      CommaPosition(day1, stamped1, 4 + |a|);
      CommaPosition(day2, stamped2, 4 + |a|);
      assert false;
    } else if |b| < |a| {
      CommaPosition(day1, stamped1, 4 + |b|);
      CommaPosition(day2, stamped2, 4 + |b|);
      assert false;
    }
    assert a == l[4..4 + |a|] == b;
    IntTextInjective(day1, day2);
    var rest := l[4 + |a| + 2..];
    assert rest == (if stamped1 then "stamped" else "unstamped");
    assert rest == (if stamped2 then "stamped" else "unstamped");
  }

  class Stamp {
    const day: int
    const stamp: string
    var isStamped: bool

    /** `useState(false)`: a new button is unstamped. */
    constructor(day: int, stamp: string)
      ensures this.day == day && this.stamp == stamp && !isStamped
    {
      this.day := day;
      this.stamp := stamp;
      isStamped := false;
    }

    /** `handleClick`: the state flips. */
    method HandleClick()
      modifies this
      ensures isStamped == !old(isStamped)
    {
      isStamped := !isStamped;
    }

    function AriaLabel(): string
      reads this
    {
      StampAriaLabel(day, isStamped)
    }

    function AriaPressed(): bool
      reads this
    {
      isStamped
    }

    /** The icon is drawn only while stamped. */
    predicate ShowsIcon()
      reads this
    {
      isStamped
    }

    /** The opacity of the day number, in percent. */
    function DayNumberOpacity(): int
      reads this
    {
      if isStamped then 0 else 100
    }
  }

  /** Everything the button shows follows the state: aria-pressed is the state, the
      icon is drawn and the day number hidden exactly when stamped, and the label
      reads back the day and the state. */
  lemma ButtonReflectsState(s: Stamp, day: int, isStamped: bool)
    requires s.AriaLabel() == StampAriaLabel(day, isStamped)
    ensures s.day == day && s.isStamped == isStamped
    ensures s.AriaPressed() == s.ShowsIcon() == isStamped
    ensures s.DayNumberOpacity() == 0 <==> isStamped
  {
    AriaLabelInjective(s.day, s.isStamped, day, isStamped);
  }

  /** A new button clicked once is stamped; clicked again it is unstamped, as it began. */
  method ClickTwice(day: int, stamp: string) returns (afterOne: string, afterTwo: string)
    ensures afterOne == StampAriaLabel(day, true)
    ensures afterTwo == StampAriaLabel(day, false)
  {
    var s := new Stamp(day, stamp);
    s.HandleClick();
    afterOne := s.AriaLabel();
    s.HandleClick();
    afterTwo := s.AriaLabel();
  }
}
