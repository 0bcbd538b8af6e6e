/** The topic gate `_is_medical_question`: one classification call to the
    language model, read as a verdict by a case-insensitive search for `true`.
    The call itself is an oracle: its reply is the content of the model's
    answer, or `Err` when the call raised. */
module TopicGate {
  import opened Wrappers
  import opened Text

  type Reply = Result<string>

  /** The gate's verdict. It fails open: a failed call counts as medical. */
  function IsMedicalQuestion(reply: Reply): (medical: bool)
    ensures reply.Err? ==> medical
    ensures reply.Ok? ==> (medical <==> IsInfix("true", Lower(reply.value)))
  {
    match reply
    case Err(_) => true
    case Ok(content) =>
      ContainsIsInfix(Lower(content), "true");
      Contains(Lower(content), "true")
  }

  /** Lower-casing commutes with taking a slice. */
  lemma LowerSlice(s: string, i: nat, j: nat)
    requires i <= j <= |s|
    ensures Lower(s)[i..j] == Lower(s[i..j])
  {
  }

  /** The four characters of `content` from position `i` spell `true` in some
      mix of upper and lower case. */
  predicate SpellsTrueAt(content: string, i: int)
  {
    && 0 <= i <= |content| - 4
    && content[i] in "tT" && content[i + 1] in "rR" && content[i + 2] in "uU" && content[i + 3] in "eE"
  }

  /** A four-character window lower-cases to `true` exactly when it spells
      `true` in some mix of case. */
  lemma LowerWindow(content: string, i: int)
    requires 0 <= i <= |content| - 4
    ensures Lower(content[i..i + 4]) == "true" <==> SpellsTrueAt(content, i)
  {
    var w := content[i..i + 4];
    assert w[0] == content[i] && w[1] == content[i + 1] && w[2] == content[i + 2] && w[3] == content[i + 3];
    assert Lower(w) == [LowerChar(w[0]), LowerChar(w[1]), LowerChar(w[2]), LowerChar(w[3])];
  }

  /** A successful reply passes the gate exactly when some four consecutive
      characters of it spell `true` in any mix of upper and lower case. */
  lemma {:induction false} GateIsCaseInsensitive(content: string)
    ensures IsMedicalQuestion(Ok(content)) <==> exists i :: SpellsTrueAt(content, i)
  {
    if IsMedicalQuestion(Ok(content)) {
      var i :| OccursAt("true", Lower(content), i);
      LowerSlice(content, i, i + 4);
      LowerWindow(content, i);
      assert SpellsTrueAt(content, i);
    }
    if exists i :: SpellsTrueAt(content, i) {
      var i :| SpellsTrueAt(content, i);
      LowerWindow(content, i);
      LowerSlice(content, i, i + 4);
      assert OccursAt("true", Lower(content), i);
    }
  }

  /** Sample replies: the verdict ignores case, `false` is refused, any reply
      merely containing `true` passes, and a failed call passes. */
  lemma GateExamples(e: string)
    ensures IsMedicalQuestion(Ok("True"))
    ensures IsMedicalQuestion(Ok("TRUE\n"))
    ensures !IsMedicalQuestion(Ok("false"))
    ensures IsMedicalQuestion(Ok("untrue"))
    ensures IsMedicalQuestion(Err(e))
  {
    assert OccursAt("true", Lower("True"), 0);
    assert OccursAt("true", Lower("TRUE\n"), 0);
    assert OccursAt("true", Lower("untrue"), 2);
    assert Lower("false") == "false";
    assert "false"[..4][0] == 'f' && "alse"[..4][0] == 'a';
    assert !Contains("lse", "true") by {
      assert !StartsWith("lse", "true") && !StartsWith("se", "true") && !StartsWith("e", "true") && !StartsWith("", "true");
      assert "lse"[1..] == "se" && "se"[1..] == "e" && "e"[1..] == "";
    }
    assert "false"[1..] == "alse" && "alse"[1..] == "lse";
  }
}
