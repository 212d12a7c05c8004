/** Human-readable change-class information and the five-line change summary. */
module ChangeStatistics {
  import opened Common
  import Config
  import Imagery

  /** The dictionary `get_class_info` returns: class, label and colour. */
  datatype ClassInfo = ClassInfo(classValue: int, labelText: string, color: string)

  function InvalidClass(classValue: int): Error {
    ValueError("Invalid class: " + IntRepr(classValue) + ". Valid: 1-5")
  }

  /** `get_class_info`: the class table entry in English for "en" and in Spanish for
      every other language; any class outside the table is a ValueError. */
  function GetClassInfo(classValue: int, language: string := "en"): (r: Result<ClassInfo>)
    ensures r.Ok? <==> 1 <= classValue <= 5
    ensures r.Ok? ==> r.value.classValue == classValue
    ensures r.Ok? ==> r.value.color == Config.ChangeClasses()[classValue].color
    ensures r.Ok? && language == "en" ==> r.value.labelText == Config.ChangeClasses()[classValue].labelEn
    ensures r.Ok? && language != "en" ==> r.value.labelText == Config.ChangeClasses()[classValue].labelEs
    ensures r.Err? ==> r.error == InvalidClass(classValue)
  {
    var classes := Config.ChangeClasses();
    if classValue !in classes then Err(InvalidClass(classValue))
    else
      var info := classes[classValue];
      Ok(ClassInfo(classValue, if language == "en" then info.labelEn else info.labelEs, info.color))
  }

  /** Every language other than "en" reads the Spanish labels. */
  lemma NonEnglishIsSpanish(classValue: int, language: string)
    requires language != "en"
    ensures GetClassInfo(classValue, language) == GetClassInfo(classValue, "es")
  {
  }

  /** The five classes have pairwise different colors. */
  lemma {:induction false} ClassColorsDistinct(c1: int, c2: int, language: string)
    requires 1 <= c1 <= 5 && 1 <= c2 <= 5 && c1 != c2
    ensures GetClassInfo(c1, language).value.color != GetClassInfo(c2, language).value.color
  {
    var m := Config.ChangeClasses();
    assert m[1].color[1] == 'd' && m[2].color[1] == 'f' && m[3].color[1] == 'f';
    assert m[4].color[1] == 'a' && m[5].color[1] == '1';
    assert m[2].color[2] == 'd' && m[3].color[2] == 'f';
  }

  /** The five classes have pairwise different labels, in either language. */
  lemma {:induction false} ClassLabelsDistinct(c1: int, c2: int, language: string)
    requires 1 <= c1 <= 5 && 1 <= c2 <= 5 && c1 != c2
    ensures GetClassInfo(c1, language).value.labelText != GetClassInfo(c2, language).value.labelText
  {
    if language == "en" {
      EnglishLabelsDistinct(c1, c2);
    } else {
      SpanishLabelsDistinct(c1, c2);
    }
  }

  lemma {:induction false} EnglishLabelsDistinct(c1: int, c2: int)
    requires 1 <= c1 <= 5 && 1 <= c2 <= 5 && c1 != c2
    ensures Config.ChangeClasses()[c1].labelEn != Config.ChangeClasses()[c2].labelEn
  {
    var m := Config.ChangeClasses();
    assert m[1].labelEn[1] == 't' && m[2].labelEn[1] == 'o' && m[3].labelEn[1] == 't';
    assert m[4].labelEn[1] == 'o' && m[5].labelEn[1] == 't';
    assert m[1].labelEn[2] == 'r' && m[2].labelEn[2] == 'd' && m[3].labelEn[2] == 'a';
    assert m[4].labelEn[2] == 'd' && m[5].labelEn[2] == 'r';
    assert m[1].labelEn[7] == 'L' && m[5].labelEn[7] == 'G';
    assert m[2].labelEn[9] == 'L' && m[4].labelEn[9] == 'G';
  }

  lemma {:induction false} SpanishLabelsDistinct(c1: int, c2: int)
    requires 1 <= c1 <= 5 && 1 <= c2 <= 5 && c1 != c2
    ensures Config.ChangeClasses()[c1].labelEs != Config.ChangeClasses()[c2].labelEs
  {
    var m := Config.ChangeClasses();
    assert m[1].labelEs[0] == 'P' && m[2].labelEs[0] == 'P' && m[3].labelEs[0] == 'E';
    assert m[4].labelEs[0] == 'G' && m[5].labelEs[0] == 'G';
    assert m[1].labelEs[8] == 'F' && m[2].labelEs[8] == 'M';
    assert m[4].labelEs[9] == 'M' && m[5].labelEs[9] == 'F';
  }

  /** `summarize_change`: the class information of classes 1..5, in that order. The
      area statistics it requests from the engine are never used in the result. */
  method SummarizeChange(changeImage: Imagery.Image, aoi: Imagery.Aoi, scale: int := 30, language: string := "en")
    returns (summary: seq<ClassInfo>)
    ensures |summary| == 5
    ensures forall i :: 0 <= i < 5 ==> summary[i].classValue == i + 1
    ensures forall i :: 0 <= i < 5 ==> GetClassInfo(i + 1, language) == Ok(summary[i])
  {
    summary := [];
    var classValue := 1;
    while classValue < 6
      invariant 1 <= classValue <= 6
      invariant |summary| == classValue - 1
      invariant forall i :: 0 <= i < |summary| ==> GetClassInfo(i + 1, language) == Ok(summary[i])
    {
      var info := GetClassInfo(classValue, language);
      summary := summary + [info.value];
      classValue := classValue + 1;
    }
  }
}
