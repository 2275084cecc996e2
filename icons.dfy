/** The stamp icon table (src/components/icons.tsx): eleven named icons, the names a
    user may pick (every name but "check", which cards fall back to), and the
    lookup that renders nothing for a name without an icon. An icon component is
    represented by the name it is registered under. */
module Icons {
  import opened Common

  /** `StampIconName`, the keys of `stampIcons`. */
  datatype StampIconName = Check | Star | Heart | Smile | ThumbsUp | Award | Camera | Plane | Book | PenTool | Code
  {
    /** The key text in the table. */
    function Key(): string {
      match this
      case Check => "check"
      case Star => "star"
      case Heart => "heart"
      case Smile => "smile"
      case ThumbsUp => "thumbs-up"
      case Award => "award"
      case Camera => "camera"
      case Plane => "plane"
      case Book => "book"
      case PenTool => "pen-tool"
      case Code => "code"
    }
  }

  /** `Object.keys(stampIcons)`, in declaration order. */
  const StampIconKeys: seq<StampIconName> :=
    [Check, Star, Heart, Smile, ThumbsUp, Award, Camera, Plane, Book, PenTool, Code]

  /** Every name is a key of the table, once. */
  lemma StampIconKeysComplete(name: StampIconName)
    ensures name in StampIconKeys
    ensures NoDuplicates(StampIconKeys)
  {
  }

  /** Different names have different key texts, so a text names at most one icon. */
  lemma KeyInjective(a: StampIconName, b: StampIconName)
    requires a.Key() == b.Key()
    ensures a == b
  {
    assert a.Key()[0] == b.Key()[0] && |a.Key()| == |b.Key()|;
  }

  /** `stampIconNames`: the keys with "check" filtered out. */
  function StampIconNames(): seq<StampIconName> {
    Without(StampIconKeys, Check)
  }

  /** The selectable names are every key after "check", in declaration order. */
  lemma StampIconNamesInOrder()
    ensures StampIconNames() == StampIconKeys[1..]
  {
    WithoutHead(StampIconKeys);
  }

  /** The keys after "check", which are the selectable names: ten distinct names,
      "check" not among them, every other name among them. */
  lemma KeysAfterCheck(name: StampIconName)
    ensures |StampIconKeys[1..]| == 10
    ensures NoDuplicates(StampIconKeys[1..])
    ensures name in StampIconKeys[1..] <==> name != Check
  {
  }

  /** The icon registered under a text: `stampIcons[name]`. */
  function Lookup(name: string): (r: Option<StampIconName>)
    ensures r.None? <==> forall k :: 0 <= k < |StampIconKeys| ==> StampIconKeys[k].Key() != name
    ensures r.Some? ==> r.value.Key() == name
  {
    match FindIndex(StampIconKeys, (k: StampIconName) => k.Key() == name)
    case Some(i) => Some(StampIconKeys[i])
    case None => None
  }

  /** `StampIcon({ name })`: the icon of a known name; None (`return null`) when the
      table has no entry. */
  function StampIcon(name: string): (r: Option<StampIconName>)
    ensures r.None? <==> forall icon: StampIconName :: icon.Key() != name
    ensures r.Some? ==> r.value.Key() == name
  {
    var r := Lookup(name);
    assert r.None? ==> forall icon: StampIconName :: icon.Key() != name by {
      if r.None? {
        forall icon: StampIconName ensures icon.Key() != name {
          StampIconKeysComplete(icon);
        }
      }
    }
    r
  }

  /** Every name renders its own icon. */
  lemma StampIconOfKey(icon: StampIconName)
    ensures StampIcon(icon.Key()) == Some(icon)
  {
    var r := StampIcon(icon.Key());
    KeyInjective(r.value, icon);
  }
}
