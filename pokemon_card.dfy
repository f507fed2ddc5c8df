/** One card of the list: the favourite toggle, the type colours, the image
    and the placeholder shown until the detail record is available. */
module PokemonCard {
  import opened Common
  import opened Store
  import Utils

  /** The card colour when the colour table has no entry for the main type. */
  const DefaultColor := "#A8A77A"

  /** The fields of a detail record the card reads. */
  datatype Detail = Detail(
    id: nat,
    name: string,
    types: seq<string>,
    artwork: Option<string>,
    frontDefault: Option<string>)

  /** `TYPE_COLORS[key]`: `undefined` for a key the table lacks. */
  function Lookup(colors: map<string, string>, key: string): (r: Option<string>) {
    if key in colors then Some(colors[key]) else None
  }

  /** `TYPE_COLORS[mainType] || '#A8A77A'` with `mainType` the first listed type.
      (`types[0]` of an empty list throws, hence the precondition.) */
  function CardColor(colors: map<string, string>, types: seq<string>): (c: string)
    requires |types| > 0
    ensures c != ""
    ensures types[0] in colors && colors[types[0]] != "" ==> c == colors[types[0]]
    ensures !(types[0] in colors && colors[types[0]] != "") ==> c == DefaultColor
  {
    Or(Lookup(colors, types[0]), Some(DefaultColor)).value
  }

  /** `TYPE_COLORS[t.type.name] || color` for each type tag, in order. */
  function TagColors(colors: map<string, string>, types: seq<string>, color: string): (r: seq<string>)
    ensures |r| == |types|
    ensures forall i :: 0 <= i < |types| ==>
      r[i] == if types[i] in colors && colors[types[i]] != "" then colors[types[i]] else color
  {
    seq(|types|, i requires 0 <= i < |types| => Or(Lookup(colors, types[i]), Some(color)).value)
  }

  /** The first tag always carries the card colour, and no tag is colourless. */
  lemma TagColorsAgreeWithCard(colors: map<string, string>, types: seq<string>)
    requires |types| > 0
    ensures TagColors(colors, types, CardColor(colors, types))[0] == CardColor(colors, types)
    ensures forall c :: c in TagColors(colors, types, CardColor(colors, types)) ==> c != ""
  {
  }

  /** `toggleFavorite` on the store: remove when a favourite, add otherwise. */
  function FavoriteToggled(s: State, id: int): (t: State)
    ensures IsFavoriteIn(t, id) <==> !IsFavoriteIn(s, id)
    ensures forall x :: x != id ==> (IsFavoriteIn(t, x) <==> IsFavoriteIn(s, x))
    ensures IsFavoriteIn(s, id) ==> t.favorites == Without(s.favorites, id)
    ensures !IsFavoriteIn(s, id) ==> t.favorites == s.favorites + [id]
    ensures t.(favorites := s.favorites) == s
  {
    if IsFavoriteIn(s, id) then FavoriteRemoved(s, id) else FavoriteAdded(s, id)
  }

  /** Toggling a card that is not a favourite on and off again restores the list exactly. */
  lemma {:induction false} ToggleBackRestores(s: State, id: int)
    requires !IsFavoriteIn(s, id)
    ensures FavoriteToggled(FavoriteToggled(s, id), id) == s
  {
    WithoutAppended(s.favorites, id);
    WithoutAbsent(s.favorites, id);
  }

  /** The heart button's handler. */
  method ToggleFavorite(store: PokedexStore, id: int)
    modifies store
    ensures store.Snapshot() == FavoriteToggled(old(store.Snapshot()), id)
  {
    var isFav := store.IsFavorite(id);
    if isFav {
      store.RemoveFavorite(id);
    } else {
      store.AddFavorite(id);
    }
  }

  /** What the card renders. */
  datatype CardView =
    | Placeholder
    | Card(idLabel: string, isFavorite: bool, color: string, tagColors: seq<string>, image: Option<string>)

  /** The render of `PokemonCard` for the state of its detail query. */
  function Render(isLoading: bool, data: Option<Detail>, colors: map<string, string>, s: State): (v: CardView)
    requires !isLoading && data.Some? ==> |data.value.types| > 0
    ensures v.Placeholder? <==> isLoading || data.None?
    ensures v.Card? ==>
      var d := data.value;
      && v.idLabel == Utils.FormatId(d.id)
      && (v.isFavorite <==> IsFavoriteIn(s, d.id))
      && v.color == CardColor(colors, d.types)
      && v.tagColors == TagColors(colors, d.types, v.color) && v.tagColors[0] == v.color
      && v.image == SpriteUrl(d.artwork, d.frontDefault)
  {
    if isLoading || data.None? then
      Placeholder
    else
      var d := data.value;
      var color := CardColor(colors, d.types);
      TagColorsAgreeWithCard(colors, d.types);
      Card(Utils.FormatId(d.id), IsFavoriteIn(s, d.id), color, TagColors(colors, d.types, color), SpriteUrl(d.artwork, d.frontDefault))
  }
}
