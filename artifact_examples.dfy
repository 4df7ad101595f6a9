// The keyword tests on the messages the slash commands send
// (app/page.tsx:59, 74, 80, 86) and on messages that show the edges of the
// two tests: "component" alone, and a message with no keyword at all.

module ArtifactExamples {
  import opened Strings
  import opened Artifacts

  /** `s` contains `p` because it occurs at `i`. */
  lemma Found(s: string, p: string, i: nat)
    requires OccursAt(s, p, i)
    ensures Contains(s, p)
  {
  }

  /** A word occurs in any text made of some prefix, the word, and some suffix. */
  lemma FoundBetween(a: string, p: string, b: string)
    ensures Contains(a + p + b, p)
  {
    assert (a + p + b)[|a|..|a| + |p|] == p;
    Found(a + p + b, p, |a|);
  }

  /** `s` cannot contain `p` when one character of `p` is missing from `s`. */
  lemma LacksChar(s: string, p: string, k: nat)
    requires k < |p| && p[k] !in s
    ensures !Contains(s, p)
  {
    forall i: nat | i <= |s| ensures !OccursAt(s, p, i) {
      if i + |p| <= |s| { assert s[i..i + |p|][k] == s[i + k]; }
    }
  }

  /** `s` cannot contain `p` when two adjacent characters of `p` never appear side by side in `s`. */
  lemma LacksPair(s: string, p: string, k: nat)
    requires k + 1 < |p|
    requires forall i | 0 <= i < |s| - 1 :: !(s[i] == p[k] && s[i + 1] == p[k + 1])
    ensures !Contains(s, p)
  {
    forall i: nat | i <= |s| ensures !OccursAt(s, p, i) {
      if i + |p| <= |s| { assert s[i..i + |p|][k] == s[i + k] && s[i..i + |p|][k + 1] == s[i + k + 1]; }
    }
  }

  // ---------------------------------------------------------------------
  // `/code`: "Generate a React component"

  lemma CodePromptKeywords()
    ensures Contains("generate a react component", "generate")
    ensures Contains("generate a react component", "component")
  {
    Found("generate a react component", "generate", 0);
    assert "generate a react component" == "generate a react " + "component" + "";
    FoundBetween("generate a react ", "component", "");
  }

  lemma CodePromptLower()
    ensures ToLower("Generate a React component") == "generate a react component"
  {
  }

  /** `/code` asks for an artifact and gets the React Button Component. */
  lemma CodePrompt()
    ensures HasArtifact("Generate a React component")
    ensures Classify("Generate a React component") == Some(CodeArtifact)
  {
    CodePromptLower();
    CodePromptKeywords();
  }

  // ---------------------------------------------------------------------
  // `/image`: "Generate an image of a landscape"

  lemma ImagePromptFound()
    ensures Contains("generate an image of a landscape", "generate")
    ensures Contains("generate an image of a landscape", "image")
  {
    Found("generate an image of a landscape", "generate", 0);
    assert "generate an image of a landscape" == "generate an " + "image" + " of a landscape";
    FoundBetween("generate an ", "image", " of a landscape");
  }

  lemma ImagePromptLacks()
    ensures !Contains("generate an image of a landscape", "code")
    ensures !Contains("generate an image of a landscape", "component")
  {
    LacksPair("generate an image of a landscape", "code", 0);
    LacksPair("generate an image of a landscape", "component", 0);
  }

  lemma ImagePromptLower()
    ensures ToLower("Generate an image of a landscape") == "generate an image of a landscape"
  {
  }

  /** `/image` asks for an artifact and gets the landscape image. */
  lemma ImagePrompt()
    ensures HasArtifact("Generate an image of a landscape")
    ensures Classify("Generate an image of a landscape") == Some(ImageArtifact)
  {
    ImagePromptLower();
    ImagePromptFound();
    ImagePromptLacks();
  }

  // ---------------------------------------------------------------------
  // `/document`: "Create a document about AI"

  lemma DocumentPromptFound()
    ensures Contains("create a document about ai", "create")
    ensures Contains("create a document about ai", "document")
  {
    Found("create a document about ai", "create", 0);
    assert "create a document about ai" == "create a " + "document" + " about ai";
    FoundBetween("create a ", "document", " about ai");
  }

  lemma DocumentPromptLacks()
    ensures !Contains("create a document about ai", "code")
    ensures !Contains("create a document about ai", "component")
    ensures !Contains("create a document about ai", "image")
  {
    LacksPair("create a document about ai", "code", 0);
    LacksPair("create a document about ai", "component", 0);
    LacksChar("create a document about ai", "image", 3);
  }

  lemma DocumentPromptLower()
    ensures ToLower("Create a document about AI") == "create a document about ai"
  {
  }

  /** `/document` asks for an artifact and gets the AI document. */
  lemma DocumentPrompt()
    ensures HasArtifact("Create a document about AI")
    ensures Classify("Create a document about AI") == Some(DocumentArtifact)
  {
    DocumentPromptLower();
    DocumentPromptFound();
    DocumentPromptLacks();
  }

  // ---------------------------------------------------------------------
  // `/help`: "Show me all available commands"

  lemma HelpPromptLacksCode()
    ensures !Contains("show me all available commands", "code")
    ensures !Contains("show me all available commands", "component")
  {
    LacksPair("show me all available commands", "code", 1);
    LacksChar("show me all available commands", "component", 3);
  }

  lemma HelpPromptLacksImage()
    ensures !Contains("show me all available commands", "image")
    ensures !Contains("show me all available commands", "document")
  {
    LacksChar("show me all available commands", "image", 3);
    LacksChar("show me all available commands", "document", 3);
  }

  lemma HelpPromptRequestKeywords()
    ensures !Contains("show me all available commands", "generate")
    ensures !Contains("show me all available commands", "create")
  {
    LacksChar("show me all available commands", "generate", 0);
    LacksChar("show me all available commands", "create", 1);
  }

  lemma HelpPromptLower()
    ensures ToLower("Show me all available commands") == "show me all available commands"
  {
  }

  /** `/help` asks for no artifact and would classify to none. */
  lemma HelpPrompt()
    ensures !HasArtifact("Show me all available commands")
    ensures Classify("Show me all available commands") == None
  {
    HelpPromptLower();
    HelpPromptLacksCode();
    HelpPromptLacksImage();
    HelpPromptRequestKeywords();
  }

  // ---------------------------------------------------------------------
  // Edges of the two tests

  lemma ComponentKeywords()
    ensures !Contains("component", "code")
    ensures !Contains("component", "image")
    ensures !Contains("component", "document")
    ensures !Contains("component", "generate")
    ensures !Contains("component", "create")
    ensures Contains("component", "component")
  {
    LacksChar("component", "code", 2);
    LacksChar("component", "image", 0);
    LacksChar("component", "document", 0);
    LacksChar("component", "generate", 0);
    LacksChar("component", "create", 1);
    Found("component", "component", 0);
  }

  /** "component" alone is classified as code but does not set `hasArtifact`,
      so sending it never starts a generation. */
  lemma ComponentAlone()
    ensures !HasArtifact("Component")
    ensures Classify("Component") == Some(CodeArtifact)
  {
    assert ToLower("Component") == "component";
    ComponentKeywords();
  }

  lemma NoKeywordKeywords()
    ensures !Contains("xyz", "code") && !Contains("xyz", "component")
    ensures !Contains("xyz", "image") && !Contains("xyz", "document")
    ensures !Contains("xyz", "generate") && !Contains("xyz", "create")
  {
    LacksChar("xyz", "code", 0);
    LacksChar("xyz", "component", 0);
    LacksChar("xyz", "image", 0);
    LacksChar("xyz", "document", 0);
    LacksChar("xyz", "generate", 0);
    LacksChar("xyz", "create", 0);
  }

  /** The literal "xyz" has no keyword: it is neither flagged nor classified. */
  lemma NoKeywordExample()
    ensures !HasArtifact("xyz")
    ensures Classify("xyz") == None
  {
    assert ToLower("xyz") == "xyz";
    NoKeywordKeywords();
  }

  /** Any message that mentions none of the six words is neither flagged nor classified,
      so its send starts no generation and a generation for it would show no artifact. */
  lemma NoKeyword(content: string)
    requires forall k | k in ["code", "component", "image", "document", "generate", "create"] :: !Mentions(content, k)
    ensures !HasArtifact(content)
    ensures Classify(content) == None
  {
    var ks := ["code", "component", "image", "document", "generate", "create"];
    assert !Mentions(content, ks[0]) && !Mentions(content, ks[1]) && !Mentions(content, ks[2]);
    assert !Mentions(content, ks[3]) && !Mentions(content, ks[4]) && !Mentions(content, ks[5]);
  }
}
