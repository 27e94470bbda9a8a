/** Concrete walks and retrievals on small documents, worked out from the
    definitions. */
module Examples {
  import opened Wrappers
  import opened Strings
  import opened Flattener
  import opened Retrieval

  /** `{descripcion: "x"}` under `root` gives one chunk at `root`. */
  lemma DescriptionOnly()
    ensures Flatten(Dict([("descripcion", Str("x"))]), "root") == [Chunk("root", Str("x"))]
  {
  }

  /** A label annotates the description chunk, and the label entry is walked
      like any other key, giving a second chunk of its own. */
  lemma LabelledDescription()
    ensures Flatten(Dict([("descripcion", Str("x")), ("etiqueta", Str("L1"))]), "root")
         == [Chunk("root -> Etiqueta L1", Str("x")), Chunk("root -> etiqueta", Str("L1"))]
  {
    var es := [("descripcion", Str("x")), ("etiqueta", Str("L1"))];
    assert Lookup(es, LabelKey) == Some(Str("L1")) by {
      assert es[1..][0].0 == "etiqueta";
    }
    assert Label(es) == Some("L1");
    assert DescSource("root", Some("L1")) == "root -> Etiqueta L1";
    assert ChildSource("root", "etiqueta") == "root -> etiqueta";
    assert EntryChunks(es[0], "root") == [];
    assert EntryChunks(es[1], "root") == [Chunk("root -> etiqueta", Str("L1"))];
    assert FlattenEntries(es[1..], "root") == [Chunk("root -> etiqueta", Str("L1"))] by {
      assert es[1..][0] == es[1];
      assert es[1..][1..] == [];
    }
  }

  /** Nested keys at the root are joined by arrows, without a leading one. */
  lemma NestedKeysAtRoot()
    ensures Flatten(Dict([("a", Dict([("b", Str("leaf"))]))]), "") == [Chunk("a -> b", Str("leaf"))]
  {
    var inner := [("b", Str("leaf"))];
    assert ChildSource("a", "b") == "a -> b";
    assert EntryChunks(inner[0], "a") == [Chunk("a -> b", Str("leaf"))];
    assert FlattenEntries(inner, "a") == [Chunk("a -> b", Str("leaf"))] by {
      assert inner[1..] == [];
    }
    var outer := [("a", Dict(inner))];
    assert FlattenEntries(outer, "") == Flatten(Dict(inner), "a") by {
      assert outer[1..] == [];
    }
  }

  /** A bare string at the root is dropped. */
  lemma BareStringDropped()
    ensures Flatten(Str("bare string"), "") == []
  {
  }

  /** A list's items share the list's breadcrumb and keep their order. */
  lemma ListSharesBreadcrumb()
    ensures Flatten(List([Dict([("descripcion", Str("x"))]), Dict([("descripcion", Str("y"))])]), "ctx")
         == [Chunk("ctx", Str("x")), Chunk("ctx", Str("y"))]
  {
  }

  /** Two hits and a padding -1 from an index holding two vectors. */
  lemma PaddedSearch()
    ensures BuildPrompt([Chunk("a", Str("uno")), Chunk("b", Str("dos"))], [1, 0, -1], "q")
         == Ok(Intro + "dos\n\nuno\n\ndos" + QuestionMarker + "q" + AnswerCue)
  {
    var chunks := [Chunk("a", Str("uno")), Chunk("b", Str("dos"))];
    var positions := [1, 0, -1];
    var texts := RetrievedTexts(chunks, positions);
    assert texts == ["dos", "uno", "dos"];
    assert texts[1..] == ["uno", "dos"] && texts[1..][1..] == ["dos"];
    assert Join(ContextSeparator, texts) == "dos\n\nuno\n\ndos";
  }
}
