/**
 * The link between the template texts and the placeholder list: each template text is its
 * placeholders, in order, each in braces after its separator. Since neither separators nor
 * names contain braces, the i-th "{...}" of the text names the i-th placeholder, which is
 * the property whose value `Message` passes as the i-th argument.
 *
 * The default template is built up one placeholder at a time, one lemma per prefix, since
 * the solver does not compare long string literals in one step.
 */
module TemplateText {
  import opened SerilogW3c

  /** Writing out one more placeholder appends its separator and its braced name. */
  lemma RenderStep(ks: seq<Property>, seps: seq<string>, k: nat)
    requires |seps| == |ks| && k < |ks|
    ensures Render(ks[..k + 1], seps[..k + 1]) == Render(ks[..k], seps[..k]) + seps[k] + "{" + Name(ks[k]) + "}"
  {
    assert ks[..k + 1][..k] == ks[..k];
    assert seps[..k + 1][..k] == seps[..k];
  }

  /** One step of the default template: from the text of k placeholders to the text of k + 1. */
  lemma DefaultExtend(k: nat, prefix: string, next: string)
    requires k < 11
    requires Render(Placeholders(false)[..k], Separators(false)[..k]) == prefix
    requires prefix + Separators(false)[k] + "{" + Name(Placeholders(false)[k]) + "}" == next
    ensures Render(Placeholders(false)[..k + 1], Separators(false)[..k + 1]) == next
  {
    RenderStep(Placeholders(false), Separators(false), k);
  }

  lemma DefaultPrefix1()
    ensures Render(Placeholders(false)[..1], Separators(false)[..1]) == "{RemoteIpAddress}"
  {
    DefaultExtend(0, "", "{RemoteIpAddress}");
  }

  lemma DefaultPrefix2()
    ensures Render(Placeholders(false)[..2], Separators(false)[..2]) == "{RemoteIpAddress} - {AuthUser}"
  {
    DefaultPrefix1();
    DefaultExtend(1, "{RemoteIpAddress}", "{RemoteIpAddress} - {AuthUser}");
  }

  lemma DefaultPrefix3()
    ensures Render(Placeholders(false)[..3], Separators(false)[..3]) == "{RemoteIpAddress} - {AuthUser} [{Date}"
  {
    DefaultPrefix2();
    DefaultExtend(2, "{RemoteIpAddress} - {AuthUser}", "{RemoteIpAddress} - {AuthUser} [{Date}");
  }

  lemma DefaultPrefix4()
    ensures Render(Placeholders(false)[..4], Separators(false)[..4]) == "{RemoteIpAddress} - {AuthUser} [{Date}] \"{Method}"
  {
    DefaultPrefix3();
    DefaultExtend(3, "{RemoteIpAddress} - {AuthUser} [{Date}", "{RemoteIpAddress} - {AuthUser} [{Date}] \"{Method}");
  }

  lemma DefaultPrefix5()
    ensures Render(Placeholders(false)[..5], Separators(false)[..5]) == "{RemoteIpAddress} - {AuthUser} [{Date}] \"{Method} {Path}"
  {
    DefaultPrefix4();
    DefaultExtend(4, "{RemoteIpAddress} - {AuthUser} [{Date}] \"{Method}", "{RemoteIpAddress} - {AuthUser} [{Date}] \"{Method} {Path}");
  }

  lemma DefaultPrefix6()
    ensures Render(Placeholders(false)[..6], Separators(false)[..6]) == "{RemoteIpAddress} - {AuthUser} [{Date}] \"{Method} {Path} {Protocol}"
  {
    DefaultPrefix5();
    DefaultExtend(5, "{RemoteIpAddress} - {AuthUser} [{Date}] \"{Method} {Path}", "{RemoteIpAddress} - {AuthUser} [{Date}] \"{Method} {Path} {Protocol}");
  }

  lemma DefaultPrefix7()
    ensures Render(Placeholders(false)[..7], Separators(false)[..7]) == "{RemoteIpAddress} - {AuthUser} [{Date}] \"{Method} {Path} {Protocol}\" {StatusCode}"
  {
    DefaultPrefix6();
    DefaultExtend(6, "{RemoteIpAddress} - {AuthUser} [{Date}] \"{Method} {Path} {Protocol}", "{RemoteIpAddress} - {AuthUser} [{Date}] \"{Method} {Path} {Protocol}\" {StatusCode}");
  }

  lemma DefaultPrefix8()
    ensures Render(Placeholders(false)[..8], Separators(false)[..8]) == "{RemoteIpAddress} - {AuthUser} [{Date}] \"{Method} {Path} {Protocol}\" {StatusCode} {ContentLength}"
  {
    DefaultPrefix7();
    DefaultExtend(7, "{RemoteIpAddress} - {AuthUser} [{Date}] \"{Method} {Path} {Protocol}\" {StatusCode}", "{RemoteIpAddress} - {AuthUser} [{Date}] \"{Method} {Path} {Protocol}\" {StatusCode} {ContentLength}");
  }

  lemma DefaultPrefix9()
    ensures Render(Placeholders(false)[..9], Separators(false)[..9]) == "{RemoteIpAddress} - {AuthUser} [{Date}] \"{Method} {Path} {Protocol}\" {StatusCode} {ContentLength} {ElapsedMs}"
  {
    DefaultPrefix8();
    DefaultExtend(8, "{RemoteIpAddress} - {AuthUser} [{Date}] \"{Method} {Path} {Protocol}\" {StatusCode} {ContentLength}", "{RemoteIpAddress} - {AuthUser} [{Date}] \"{Method} {Path} {Protocol}\" {StatusCode} {ContentLength} {ElapsedMs}");
  }

  lemma DefaultPrefix10()
    ensures Render(Placeholders(false)[..10], Separators(false)[..10]) == "{RemoteIpAddress} - {AuthUser} [{Date}] \"{Method} {Path} {Protocol}\" {StatusCode} {ContentLength} {ElapsedMs} \"{UserAgent}"
  {
    DefaultPrefix9();
    DefaultExtend(9, "{RemoteIpAddress} - {AuthUser} [{Date}] \"{Method} {Path} {Protocol}\" {StatusCode} {ContentLength} {ElapsedMs}", "{RemoteIpAddress} - {AuthUser} [{Date}] \"{Method} {Path} {Protocol}\" {StatusCode} {ContentLength} {ElapsedMs} \"{UserAgent}");
  }

  lemma DefaultPrefix11()
    ensures Render(Placeholders(false)[..11], Separators(false)[..11]) == "{RemoteIpAddress} - {AuthUser} [{Date}] \"{Method} {Path} {Protocol}\" {StatusCode} {ContentLength} {ElapsedMs} \"{UserAgent}\" {Identifier}"
  {
    DefaultPrefix10();
    DefaultExtend(10, "{RemoteIpAddress} - {AuthUser} [{Date}] \"{Method} {Path} {Protocol}\" {StatusCode} {ContentLength} {ElapsedMs} \"{UserAgent}", "{RemoteIpAddress} - {AuthUser} [{Date}] \"{Method} {Path} {Protocol}\" {StatusCode} {ContentLength} {ElapsedMs} \"{UserAgent}\" {Identifier}");
  }

  /** Both template texts are their placeholder lists written out, so the names in the text are those of `Placeholders`. */
  lemma TemplatesSpellPlaceholders(strictW3C: bool)
    ensures Template(strictW3C) == Render(Placeholders(strictW3C), Separators(strictW3C))
  {
    if strictW3C {
      DefaultPrefix8();
      assert Placeholders(false)[..8] == Placeholders(true);
      assert Separators(false)[..8] == Separators(true);
    } else {
      DefaultPrefix11();
      assert Placeholders(false)[..11] == Placeholders(false);
      assert Separators(false)[..11] == Separators(false);
    }
  }
}
