/** The card record (`Card` in deck_pdf_generator/types.py). */
module Cards {
  import opened Wrappers

  /**
   * One card instance. `hp`, `atk` and `lootBudget` are only filled from a
   * `<monster>` child; `count` is the repetition count the record was
   * expanded from; `tags` may be absent, which the renderer reads as empty.
   */
  datatype Card = Card(
    id: string,
    cardType: string,
    cost: int,
    name: string,
    subtitle: string,
    effect: string,
    hp: Option<int>,
    atk: Option<int>,
    lootBudget: Option<int>,
    biome: Option<string>,
    backIcon: Option<string>,
    school: Option<string>,
    slot: Option<string>,
    klass: Option<string>,
    frontIcon: Option<string>,
    deck: Option<string>,
    count: int,
    tags: Option<seq<string>>)

  /** The dataclass constructor given only its six required fields: every other field takes its default. */
  function NewCard(id: string, cardType: string, cost: int, name: string, subtitle: string, effect: string): (c: Card)
    ensures c.id == id && c.cardType == cardType && c.cost == cost
    ensures c.name == name && c.subtitle == subtitle && c.effect == effect
    ensures c.count == 1
    ensures c.hp == None && c.atk == None && c.lootBudget == None
    ensures c.biome == None && c.backIcon == None
    ensures c.school == None && c.slot == None && c.klass == None
    ensures c.frontIcon == None && c.deck == None && c.tags == None
  {
    Card(id, cardType, cost, name, subtitle, effect, None, None, None, None, None, None, None, None, None, None, 1, None)
  }

  /** `card.tags or []`. */
  function TagsOrEmpty(c: Card): seq<string> {
    c.tags.GetOr([])
  }
}
