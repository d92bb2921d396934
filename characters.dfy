/** The character catalogue and lookup by id (data/characters.ts). */
module Characters {
  import opened Types

  const CHARACTERS: seq<CharacterData> := [
    CharacterData("frame_v01", "VANGUARD",
      "Standard issue traversing frame. Reliable and balanced.",
      Common, Standard, Colors("#1e293b", "#0ea5e9", "#0ea5e9")),
    CharacterData("frame_stealth", "VOID WALKER",
      "Optimized for minimal radar signature. Aerodynamic chassis.",
      Rare, Stealth, Colors("#0f172a", "#a855f7", "#d946ef")),
    CharacterData("frame_assault", "CRIMSON EDGE",
      "High-output combat chassis. Reinforced plating.",
      Rare, Heavy, Colors("#450a0a", "#ef4444", "#f87171")),
    CharacterData("frame_proto", "SOLARIS PRIME",
      "Experimental prototype using pure energy containment fields.",
      Legendary, Proto, Colors("#fffbeb", "#f59e0b", "#fbbf24")),
    CharacterData("frame_toxin", "ACID RAIN",
      "Industrial hazard plating. Heavy duty filters.",
      Common, Heavy, Colors("#064e3b", "#10b981", "#34d399"))
  ]

  /** `Array.prototype.find` on ids, from index `from` on: the first index
      whose id matches, or None when no later entry matches. */
  function FindFrom(cs: seq<CharacterData>, id: string, from: nat): (r: Option<nat>)
    requires from <= |cs|
    ensures r.Some? ==> from <= r.value < |cs| && cs[r.value].id == id
    ensures r.Some? ==> forall j :: from <= j < r.value ==> cs[j].id != id
    ensures r.None? <==> forall j :: from <= j < |cs| ==> cs[j].id != id
    decreases |cs| - from
  {
    if from == |cs| then None
    else if cs[from].id == id then Some(from)
    else FindFrom(cs, id, from + 1)
  }

  /** The catalogue entry with the given id, falling back to the first entry. */
  function GetCharacterById(id: string): (c: CharacterData)
    ensures c in CHARACTERS
    ensures (exists i :: 0 <= i < |CHARACTERS| && CHARACTERS[i].id == id) ==> c.id == id
    ensures (forall i :: 0 <= i < |CHARACTERS| ==> CHARACTERS[i].id != id) ==> c == CHARACTERS[0]
  {
    match FindFrom(CHARACTERS, id, 0)
    case Some(i) => CHARACTERS[i]
    case None => CHARACTERS[0]
  }

  /** No lookup falls back to a different frame than the standard one. */
  lemma DefaultIsStandardFrame()
    ensures CHARACTERS[0].id == "frame_v01" && GetCharacterById("frame_v01") == CHARACTERS[0]
  {
    assert FindFrom(CHARACTERS, "frame_v01", 0) == Some(0);
  }

  /** Catalogue ids are pairwise distinct, so a lookup that matches finds the unique entry. */
  lemma IdsDistinct()
    ensures forall i, j :: 0 <= i < j < |CHARACTERS| ==> CHARACTERS[i].id != CHARACTERS[j].id
  {
    var ids := ["frame_v01", "frame_stealth", "frame_assault", "frame_proto", "frame_toxin"];
    forall i | 0 <= i < |CHARACTERS| ensures CHARACTERS[i].id == ids[i] { }
    assert forall i, j :: 0 <= i < j < |ids| ==> ids[i] != ids[j] by {
      forall i, j | 0 <= i < j < |ids| ensures ids[i] != ids[j] {
        assert ids[i][6] != ids[j][6] || ids[i][7] != ids[j][7];
      }
    }
  }

  /** A lookup by the id of any catalogue entry returns exactly that entry. */
  lemma {:induction false} LookupFindsEntry(i: nat)
    requires i < |CHARACTERS|
    ensures GetCharacterById(CHARACTERS[i].id) == CHARACTERS[i]
  {
    IdsDistinct();
    var c := GetCharacterById(CHARACTERS[i].id);
    var k :| 0 <= k < |CHARACTERS| && CHARACTERS[k] == c;
    assert CHARACTERS[k].id == CHARACTERS[i].id;
  }

  /** Every rarity occurs in the catalogue, so every supply-drop pool is non-empty. */
  lemma EveryRarityPresent(r: Rarity)
    ensures exists i :: 0 <= i < |CHARACTERS| && CHARACTERS[i].rarity == r
  {
    match r
    case Common => assert CHARACTERS[0].rarity == Common;
    case Rare => assert CHARACTERS[1].rarity == Rare;
    case Legendary => assert CHARACTERS[3].rarity == Legendary;
  }
}
