/**
 * Focus-key constants and the key generator for dynamic items
 * (src/utils/navigation.ts). The library configuration in `initNavigation`
 * is not part of this model.
 */
module FocusKeys {
  import opened Strings

  /** The entries of the FOCUS_KEYS object. */
  datatype FocusKeyName =
    | App | MainMenu | ContentGrid | ContentRow | PlayerControls
    | DetailActions | DetailLayout | Search | Settings

  /** The string each entry of FOCUS_KEYS stands for. */
  function FocusKey(name: FocusKeyName): string {
    match name
    case App => "APP"
    case MainMenu => "MENU"
    case ContentGrid => "CONTENT_GRID"
    case ContentRow => "CONTENT_ROW"
    case PlayerControls => "PLAYER_CONTROLS"
    case DetailActions => "DETAIL_ACTIONS"
    case DetailLayout => "DETAIL_LAYOUT"
    case Search => "SEARCH"
    case Settings => "SETTINGS"
  }

  /** No two entries of FOCUS_KEYS share a value. */
  lemma FocusKeysDistinct(a: FocusKeyName, b: FocusKeyName)
    ensures FocusKey(a) == FocusKey(b) ==> a == b
  {
  }

  /** The `id` argument of `generateFocusKey`: a string or a (whole) number. */
  datatype ItemId = TextId(text: string) | NumberId(number: int)

  /** How a template literal renders the id. */
  function RenderId(id: ItemId): string {
    match id
    case TextId(t) => t
    case NumberId(n) => IntToString(n)
  }

  /** `${prefix}_${id}`: the prefix, an underscore, then the rendered id. */
  function GenerateFocusKey(prefix: string, id: ItemId): (key: string)
    ensures |key| == |prefix| + 1 + |RenderId(id)|
    ensures key[..|prefix| + 1] == prefix + "_"
    ensures key[|prefix| + 1..] == RenderId(id)
  {
    prefix + "_" + RenderId(id)
  }

  /** With a fixed prefix, different ids of the same kind never share a key. */
  lemma GenerateFocusKeyInjective(prefix: string, a: ItemId, b: ItemId)
    requires a.TextId? == b.TextId?
    requires GenerateFocusKey(prefix, a) == GenerateFocusKey(prefix, b)
    ensures a == b
  {
    var ka, kb := GenerateFocusKey(prefix, a), GenerateFocusKey(prefix, b);
    assert RenderId(a) == ka[|prefix| + 1..] == kb[|prefix| + 1..] == RenderId(b);
    if a.NumberId? {
      IntToStringInjective(a.number, b.number);
    }
  }

  /** A numeric id and the string of its digits give the same key. */
  lemma NumberAndTextIdsCollide(prefix: string)
    ensures GenerateFocusKey(prefix, NumberId(7)) == GenerateFocusKey(prefix, TextId("7"))
  {
  }

  /** The prefix cannot be recovered from a key when it may itself contain an underscore. */
  lemma UnderscoreInPrefixCollides()
    ensures GenerateFocusKey("CONTENT_ROW", TextId("1")) == GenerateFocusKey("CONTENT", TextId("ROW_1"))
  {
  }
}
