/** `FallbackButton`: a `div` with role "button" whose class string is built
    step by step from its props, and which forwards clicks and Enter/Space key
    presses to `onClick` unless it is disabled. */
module FallbackButton {

  datatype Variant = DefaultVariant | Outline | Ghost
  datatype Size = DefaultSize | Small | Large

  const BaseClasses: string :=
    "inline-flex items-center justify-center rounded-md text-sm font-medium transition-colors focus:outline-none focus:ring-2 focus:ring-offset-2 select-none"

  const DisabledClasses: string := " opacity-50 cursor-not-allowed"
  const EnabledClasses: string := " cursor-pointer"

  // The variant fragments, written one class at a time.
  const OutlineClasses: string :=
    " border" + " border-gray-300" + " bg-transparent" + " text-white" + " hover:bg-gray-100" + " hover:text-gray-900"
  const GhostClasses: string :=
    " bg-transparent" + " text-white" + " hover:bg-gray-100" + " hover:text-gray-900"
  const DefaultVariantClasses: string :=
    " bg-blue-600" + " text-white" + " hover:bg-blue-700"

  const SmallClasses: string := " h-9 px-3 py-1.5"
  const LargeClasses: string := " h-11 px-8 py-2.5"
  const DefaultSizeClasses: string := " h-10 px-4 py-2"

  function StateClasses(disabled: bool): string
  {
    if disabled then DisabledClasses else EnabledClasses
  }

  function VariantClasses(variant: Variant): string
  {
    match variant
    case Outline => OutlineClasses
    case Ghost => GhostClasses
    case DefaultVariant => DefaultVariantClasses
  }

  function SizeClasses(size: Size): string
  {
    match size
    case Small => SmallClasses
    case Large => LargeClasses
    case DefaultSize => DefaultSizeClasses
  }

  /** The class string of a button with these props: base classes, then one
      state fragment, one variant fragment, one size fragment, then the
      caller's `className` after one space when it is non-empty. */
  function ClassString(disabled: bool, variant: Variant, size: Size, className: string): string
  {
    FixedClasses(disabled, variant, size) + CustomClasses(className)
  }

  /** The fragments every button has: base, state, variant and size. */
  function FixedClasses(disabled: bool, variant: Variant, size: Size): string
  {
    BaseClasses + StateClasses(disabled) + VariantClasses(variant) + SizeClasses(size)
  }

  /** What follows the size fragment: the caller's classes after one space, or nothing. */
  function CustomClasses(className: string): string
  {
    if className == "" then "" else " " + className
  }

  /** Builds `buttonClasses` the way the component does, by appending to a
      string variable. */
  method ButtonClasses(disabled: bool, variant: Variant, size: Size, className: string)
    returns (buttonClasses: string)
    ensures buttonClasses == ClassString(disabled, variant, size, className)
  {
    buttonClasses := BaseClasses;
    if disabled {
      buttonClasses := buttonClasses + DisabledClasses;
    } else {
      buttonClasses := buttonClasses + EnabledClasses;
    }
    if variant == Outline {
      buttonClasses := buttonClasses + OutlineClasses;
    } else if variant == Ghost {
      buttonClasses := buttonClasses + GhostClasses;
    } else {
      buttonClasses := buttonClasses + DefaultVariantClasses;
    }
    if size == Small {
      buttonClasses := buttonClasses + SmallClasses;
    } else if size == Large {
      buttonClasses := buttonClasses + LargeClasses;
    } else {
      buttonClasses := buttonClasses + DefaultSizeClasses;
    }
    if className != "" {
      buttonClasses := buttonClasses + (" " + className);
    } else {
      AppendEmpty(buttonClasses);
    }
  }

  /** The state fragments differ at their second character. */
  lemma StateDetermined(d1: bool, r1: string, d2: bool, r2: string)
    requires StateClasses(d1) + r1 == StateClasses(d2) + r2
    ensures d1 == d2 && r1 == r2
  {
    assert StateClasses(true)[1] == 'o' && StateClasses(false)[1] == 'c';
    HeadAt(StateClasses(d1), r1, 1);
    HeadAt(StateClasses(d2), r2, 1);
    CancelPrefix(StateClasses(d1), r1, r2);
  }

  /** The variant fragments differ at their fifth character. */
  lemma VariantDetermined(v1: Variant, r1: string, v2: Variant, r2: string)
    requires VariantClasses(v1) + r1 == VariantClasses(v2) + r2
    ensures v1 == v2 && r1 == r2
  {
    assert |VariantClasses(Outline)| > 4 && VariantClasses(Outline)[4] == 'd';
    assert |VariantClasses(Ghost)| > 4 && VariantClasses(Ghost)[4] == 't';
    assert |VariantClasses(DefaultVariant)| > 4 && VariantClasses(DefaultVariant)[4] == 'b';
    HeadAt(VariantClasses(v1), r1, 4);
    HeadAt(VariantClasses(v2), r2, 4);
    CancelPrefix(VariantClasses(v1), r1, r2);
  }

  /** The size fragments differ at their fifth character. */
  lemma SizeDetermined(s1: Size, r1: string, s2: Size, r2: string)
    requires SizeClasses(s1) + r1 == SizeClasses(s2) + r2
    ensures s1 == s2 && r1 == r2
  {
    assert |SizeClasses(Small)| > 4 && SizeClasses(Small)[4] == ' ';
    assert |SizeClasses(Large)| > 4 && SizeClasses(Large)[4] == '1';
    assert |SizeClasses(DefaultSize)| > 4 && SizeClasses(DefaultSize)[4] == '0';
    HeadAt(SizeClasses(s1), r1, 4);
    HeadAt(SizeClasses(s2), r2, 4);
    CancelPrefix(SizeClasses(s1), r1, r2);
  }

  lemma AppendAssoc(a: string, b: string, c: string)
    ensures a + b + c == a + (b + c)
  {
  }

  lemma AppendEmpty(a: string)
    ensures a + "" == a
  {
  }

  lemma CancelPrefix(a: string, x: string, y: string)
    requires a + x == a + y
    ensures x == y
  {
    assert x == (a + x)[|a|..];
  }

  lemma HeadAt(a: string, r: string, i: nat)
    requires i < |a|
    ensures (a + r)[i] == a[i]
  {
  }

  /** The class string is the base classes followed by the state, variant,
      size and custom fragments, in that order. */
  lemma ClassStringParts(disabled: bool, variant: Variant, size: Size, className: string)
    ensures ClassString(disabled, variant, size, className)
            == BaseClasses + (StateClasses(disabled) + (VariantClasses(variant)
               + (SizeClasses(size) + CustomClasses(className))))
  {
    var b, st, v, z := BaseClasses, StateClasses(disabled), VariantClasses(variant), SizeClasses(size);
    var t := CustomClasses(className);
    AppendAssoc(b + st + v, z, t);
    AppendAssoc(b + st, v, z + t);
    AppendAssoc(b, st, v + (z + t));
  }

  lemma PrefixOfAppend(a: string, b: string)
    ensures a <= a + b
  {
  }

  lemma SuffixOfAppend(a: string, b: string)
    ensures (a + b)[|a + b| - |b|..] == b
  {
    assert (a + b)[|a|..] == b;
  }

  /** Every class string starts with the base classes; it ends with the
      caller's classes after one space when `className` is non-empty, and with
      the size fragment when it is empty. */
  lemma ClassStringShape(disabled: bool, variant: Variant, size: Size, className: string)
    ensures BaseClasses <= ClassString(disabled, variant, size, className)
    ensures var x := ClassString(disabled, variant, size, className);
            className != "" ==> x[|x| - |className| - 1..] == " " + className
    ensures var x := ClassString(disabled, variant, size, className);
            className == "" ==> x[|x| - |SizeClasses(size)|..] == SizeClasses(size)
  {
    ClassStringParts(disabled, variant, size, className);
    var st, v, z, t := StateClasses(disabled), VariantClasses(variant), SizeClasses(size), CustomClasses(className);
    PrefixOfAppend(BaseClasses, st + (v + (z + t)));
    var fixed := BaseClasses + st + v + z;
    if className != "" {
      SuffixOfAppend(fixed, " " + className);
    } else {
      AppendEmpty(fixed);
      SuffixOfAppend(BaseClasses + st + v, z);
    }
  }

  /** Different props always give different class strings: the class string
      determines the disabled flag, the variant, the size and className. */
  lemma ClassStringInjective(d1: bool, v1: Variant, s1: Size, c1: string,
                             d2: bool, v2: Variant, s2: Size, c2: string)
    requires ClassString(d1, v1, s1, c1) == ClassString(d2, v2, s2, c2)
    ensures d1 == d2 && v1 == v2 && s1 == s2 && c1 == c2
  {
    ClassStringParts(d1, v1, s1, c1);
    ClassStringParts(d2, v2, s2, c2);
    var q1 := SizeClasses(s1) + CustomClasses(c1);
    var q2 := SizeClasses(s2) + CustomClasses(c2);
    CancelPrefix(BaseClasses, StateClasses(d1) + (VariantClasses(v1) + q1),
                 StateClasses(d2) + (VariantClasses(v2) + q2));
    StateDetermined(d1, VariantClasses(v1) + q1, d2, VariantClasses(v2) + q2);
    VariantDetermined(v1, q1, v2, q2);
    SizeDetermined(s1, CustomClasses(c1), s2, CustomClasses(c2));
    if c1 != "" && c2 != "" {
      CancelPrefix(" ", c1, c2);
    }
  }

  /** `tabIndex`: a disabled button is taken out of the keyboard focus order. */
  function TabIndex(disabled: bool): (t: int)
    ensures t < 0 <==> disabled
    ensures -1 <= t <= 0
  {
    if disabled then -1 else 0
  }

  /** What reaches the button: a mouse click or a key press with its `key`. */
  datatype Event = Click | KeyDown(key: string)

  /** `handleKeyDown`: only Enter and Space count as a press. */
  predicate IsActivationKey(key: string)
  {
    key == "Enter" || key == " "
  }

  /** Whether the event ends in a call to `onClick`: `handleClick` calls it only
      when there is one and the button is enabled; `handleKeyDown` reaches
      `handleClick` only for Enter and Space. */
  function InvokesOnClick(hasOnClick: bool, disabled: bool, event: Event): (invoked: bool)
    ensures invoked ==> hasOnClick && !disabled
    ensures invoked <==> hasOnClick && !disabled && (event.Click? || IsActivationKey(event.key))
  {
    var handleClick := hasOnClick && !disabled;
    match event
    case Click => handleClick
    case KeyDown(key) => if key == "Enter" || key == " " then handleClick else false
  }

  /** A disabled button is inert: unreachable by Tab and deaf to every event. */
  lemma DisabledButtonIsInert(hasOnClick: bool, event: Event)
    ensures TabIndex(true) < 0
    ensures !InvokesOnClick(hasOnClick, true, event)
  {
  }
}
