// The two keyword tests of the chat widget: whether a user message asks for
// an artifact (`hasArtifact`, app/page.tsx:229-234) and which artifact the
// simulated generator produces for it (app/page.tsx:122-212). Both look at
// the lower-cased message only.

module Artifacts {
  import opened Strings

  datatype Option<T> = None | Some(value: T)

  datatype ArtifactType = Code | Image | Text

  /** An artifact as the side panel shows it: its type and its title.
      The literal payloads (Button source, image markup, AI document) are fixtures. */
  datatype Artifact = Artifact(kind: ArtifactType, title: string)

  const CodeArtifact: Artifact := Artifact(Code, "React Button Component")
  const ImageArtifact: Artifact := Artifact(Image, "Generated Landscape Image")
  const DocumentArtifact: Artifact := Artifact(Text, "AI Document")

  /** The message, lower-cased, contains `word`. */
  predicate Mentions(content: string, word: string)
  {
    Contains(ToLower(content), word)
  }

  /** The words that mark a user message as asking for an artifact. */
  const ArtifactKeywords: seq<string> := ["code", "image", "document", "generate", "create"]

  /** The `hasArtifact` flag of a user message. */
  predicate HasArtifact(content: string)
  {
    var lc := ToLower(content);
    Contains(lc, "code") || Contains(lc, "image") || Contains(lc, "document")
    || Contains(lc, "generate") || Contains(lc, "create")
  }

  /** The artifact a completed generation shows, tried in a fixed order. */
  function Classify(content: string): Option<Artifact>
  {
    var lc := ToLower(content);
    if Contains(lc, "code") || Contains(lc, "component") then Some(CodeArtifact)
    else if Contains(lc, "image") then Some(ImageArtifact)
    else if Contains(lc, "document") then Some(DocumentArtifact)
    else None
  }

  // ---------------------------------------------------------------------
  // Reference definitions: the keyword list and an ordered rule table.

  /** A classification rule: any of `keywords` in the message yields `artifact`. */
  datatype Rule = Rule(keywords: seq<string>, artifact: Artifact)

  const ClassificationRules: seq<Rule> :=
    [Rule(["code", "component"], CodeArtifact), Rule(["image"], ImageArtifact), Rule(["document"], DocumentArtifact)]

  predicate Fires(rule: Rule, lc: string)
  {
    exists k | k in rule.keywords :: Contains(lc, k)
  }

  /** The artifact of the first rule that fires, if any. */
  function FirstMatch(rules: seq<Rule>, lc: string): Option<Artifact>
  {
    if rules == [] then None
    else if Fires(rules[0], lc) then Some(rules[0].artifact)
    else FirstMatch(rules[1..], lc)
  }

  /** First match wins: the result is the artifact of the earliest rule that fires,
      and there is none exactly when no rule fires. */
  lemma {:induction false} FirstMatchIsEarliest(rules: seq<Rule>, lc: string)
    ensures FirstMatch(rules, lc).None? <==> forall j | 0 <= j < |rules| :: !Fires(rules[j], lc)
    ensures FirstMatch(rules, lc).Some? ==>
      exists j | 0 <= j < |rules| ::
        Fires(rules[j], lc) && FirstMatch(rules, lc).value == rules[j].artifact
        && forall m | 0 <= m < j :: !Fires(rules[m], lc)
  {
    if rules != [] && !Fires(rules[0], lc) {
      FirstMatchIsEarliest(rules[1..], lc);
      if FirstMatch(rules, lc).Some? {
        var j :| 0 <= j < |rules| - 1 && Fires(rules[1..][j], lc)
          && FirstMatch(rules, lc).value == rules[1..][j].artifact
          && forall m | 0 <= m < j :: !Fires(rules[1..][m], lc);
        assert Fires(rules[j + 1], lc);
        forall m | 0 <= m < j + 1 ensures !Fires(rules[m], lc) {
          if m > 0 { assert rules[m] == rules[1..][m - 1]; }
        }
      } else {
        forall j | 0 <= j < |rules| ensures !Fires(rules[j], lc) {
          if j > 0 { assert rules[j] == rules[1..][j - 1]; }
        }
      }
    } else if rules != [] {
      assert Fires(rules[0], lc);
    }
  }

  /** The if/else classification is the ordered rule table read first-match. */
  lemma ClassifyFollowsRules(content: string)
    ensures Classify(content) == FirstMatch(ClassificationRules, ToLower(content))
  {
    var lc := ToLower(content);
    var rules := ClassificationRules;
    assert Fires(rules[0], lc) <==> Contains(lc, "code") || Contains(lc, "component") by {
      assert rules[0].keywords == ["code", "component"];
    }
    assert Fires(rules[1], lc) <==> Contains(lc, "image") by {
      assert rules[1].keywords == ["image"];
    }
    assert Fires(rules[2], lc) <==> Contains(lc, "document") by {
      assert rules[2].keywords == ["document"];
    }
    var rest := rules[1..];
    assert rest == [Rule(["image"], ImageArtifact), Rule(["document"], DocumentArtifact)];
    assert rest[1..] == [Rule(["document"], DocumentArtifact)];
    assert rest[1..][1..] == [];
    assert FirstMatch(rest[1..], lc) == if Fires(rules[2], lc) then Some(DocumentArtifact) else None;
    assert FirstMatch(rest, lc) == if Fires(rules[1], lc) then Some(ImageArtifact) else FirstMatch(rest[1..], lc);
  }

  /** `hasArtifact` is "the lower-cased message contains one of the keywords". */
  lemma HasArtifactIffKeyword(content: string)
    ensures HasArtifact(content) <==> exists k | k in ArtifactKeywords :: Mentions(content, k)
  {
    if HasArtifact(content) {
      var lc := ToLower(content);
      var k := if Contains(lc, "code") then "code" else if Contains(lc, "image") then "image"
               else if Contains(lc, "document") then "document"
               else if Contains(lc, "generate") then "generate" else "create";
      assert k in ArtifactKeywords && Mentions(content, k);
    }
  }

  /** Both tests ignore ASCII case: a message and its lower-cased form agree. */
  lemma CaseInsensitive(content: string)
    ensures HasArtifact(ToLower(content)) == HasArtifact(content)
    ensures Classify(ToLower(content)) == Classify(content)
  {
    ToLowerProperties(content);
  }

  /** A message that would classify but is not flagged can only be one that says
      "component" and not "code": such a message never reaches the generator. */
  lemma ClassifiedButNotFlagged(content: string)
    requires Classify(content).Some? && !HasArtifact(content)
    ensures Classify(content) == Some(CodeArtifact)
    ensures Mentions(content, "component") && !Mentions(content, "code")
  {
  }

  /** A flagged message produces no artifact exactly when it is flagged only by
      "generate" or "create": the panel then opens empty. */
  lemma FlaggedButNotClassified(content: string)
    ensures HasArtifact(content) && Classify(content).None? <==>
      (Mentions(content, "generate") || Mentions(content, "create"))
      && !Mentions(content, "code") && !Mentions(content, "component")
      && !Mentions(content, "image") && !Mentions(content, "document")
  {
  }
}
