/**
 * The built-in input-method definitions: for each input method, the table
 * from a key to the name of the rule set that key triggers.
 */
module InputMethodDef {

  type InputMethodDefinition = map<string, string>

  /** The global table of definitions.  Telex has six tone keys and five mark keys. */
  const InputMethodDefinitions: map<string, InputMethodDefinition> := map[
    "Telex" := map[
      "z" := "XoaDauThanh",
      "s" := "DauSac",
      "f" := "DauHuyen",
      "r" := "DauHoi",
      "x" := "DauNga",
      "j" := "DauNang",
      "a" := "A_Â",
      "e" := "E_Ê",
      "o" := "O_Ô",
      "w" := "UOA_ƯƠĂ",
      "d" := "D_Đ"
    ]
  ]

  /** The keys of the Telex definition that set or clear a tone. */
  const TelexToneKeys: set<string> := {"s", "f", "r", "x", "j"}

  /**
   * Copies the global table entry by entry into a new map.  The copy has the
   * same keys and, under each key, the same definition as the global table.
   */
  method GetInputMethodDefinitions() returns (t: map<string, InputMethodDefinition>)
    ensures t.Keys == InputMethodDefinitions.Keys
    ensures forall k :: k in t ==> t[k] == InputMethodDefinitions[k]
  {
    t := map[];
    var pending := InputMethodDefinitions.Keys;
    while pending != {}
      invariant pending <= InputMethodDefinitions.Keys
      invariant t.Keys == InputMethodDefinitions.Keys - pending
      invariant forall k :: k in t ==> t[k] == InputMethodDefinitions[k]
      decreases |pending|
    {
      var k :| k in pending;
      t := t[k := InputMethodDefinitions[k]];
      pending := pending - {k};
    }
  }

  /**
   * The Telex definition has eleven keys: "z" clears the tone, five keys set
   * the five tones, and "w" adds the horn or breve to u, o and a.
   */
  lemma TelexDefinition()
    ensures "Telex" in InputMethodDefinitions
    ensures InputMethodDefinitions["Telex"].Keys == {"z", "s", "f", "r", "x", "j", "a", "e", "o", "w", "d"}
    ensures InputMethodDefinitions["Telex"]["z"] == "XoaDauThanh"
    ensures TelexToneKeys <= InputMethodDefinitions["Telex"].Keys
    ensures forall k :: k in TelexToneKeys ==> InputMethodDefinitions["Telex"][k][..3] == "Dau"
    ensures InputMethodDefinitions["Telex"]["w"] == "UOA_ƯƠĂ"
  {
  }
}
