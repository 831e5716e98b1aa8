/** Literal evaluations of the name derivation's building blocks on the
    identifiers of the worked examples, one small step per lemma. */
module NameSamples {
  import opened Strings

  /** "bipin" and "jaiswal" have no digits. */
  lemma LemmaSampleBipinDigits()
    ensures RemoveDigits("bipin") + [' '] + RemoveDigits("jaiswal") == "bipin jaiswal"
  {
    LemmaRemoveDigitsNone("bipin");
    LemmaRemoveDigitsNone("jaiswal");
  }

  /** "bipin" + " " + "jaiswal", capitalised. */
  lemma LemmaSampleBipin()
    ensures Capitalize(RemoveDigits("bipin") + [' '] + RemoveDigits("jaiswal")) == "Bipin jaiswal"
  {
    LemmaSampleBipinDigits();
  }

  /** The trailing digit of "sharma1" is dropped. */
  lemma LemmaSampleSharmaDigits()
    ensures RemoveDigits("sharma1") == "sharma"
  {
    LemmaRemoveDigitsNone("sharma");
    LemmaRemoveDigitsAppend("sharma", "1");
    assert RemoveDigits("1") == "";
    assert "sharma" + "1" == "sharma1";
  }

  /** "vaibhav" + " " + "sharma1" without digits. */
  lemma LemmaSampleVaibhavDigits()
    ensures RemoveDigits("vaibhav") + [' '] + RemoveDigits("sharma1") == "vaibhav sharma"
  {
    LemmaRemoveDigitsNone("vaibhav");
    LemmaSampleSharmaDigits();
  }

  /** "vaibhav" + " " + "sharma1" without digits, capitalised. */
  lemma LemmaSampleVaibhav()
    ensures Capitalize(RemoveDigits("vaibhav") + [' '] + RemoveDigits("sharma1")) == "Vaibhav sharma"
  {
    LemmaSampleVaibhavDigits();
  }

  /** "suraj" without digits, capitalised. */
  lemma LemmaSampleSuraj()
    ensures Capitalize(RemoveDigits("suraj")) == "Suraj"
  {
    LemmaRemoveDigitsNone("suraj");
  }

  /** "ravi" and "k.rao" have no digits. */
  lemma LemmaSampleRaviDigits()
    ensures RemoveDigits("ravi") + [' '] + RemoveDigits("k.rao") == "ravi k.rao"
  {
    LemmaRemoveDigitsNone("ravi");
    LemmaRemoveDigitsNone("k.rao");
  }

  /** "ravi" + " " + "k.rao", capitalised. */
  lemma LemmaSampleRavi()
    ensures Capitalize(RemoveDigits("ravi") + [' '] + RemoveDigits("k.rao")) == "Ravi k.rao"
  {
    LemmaSampleRaviDigits();
  }

  /** The trailing digit of "ravi2" is dropped and "k" has none. */
  lemma LemmaSampleRaviTwoDigits()
    ensures RemoveDigits("ravi2") + [' '] + RemoveDigits("k") == "ravi k"
  {
    LemmaRemoveDigitsNone("ravi");
    LemmaRemoveDigitsNone("k");
    LemmaRemoveDigitsAppend("ravi", "2");
    assert RemoveDigits("2") == "";
    assert "ravi" + "2" == "ravi2";
  }

  /** "ravi2" + " " + "k" without digits, capitalised. */
  lemma LemmaSampleRaviTwo()
    ensures Capitalize(RemoveDigits("ravi2") + [' '] + RemoveDigits("k")) == "Ravi k"
  {
    LemmaSampleRaviTwoDigits();
  }
}
