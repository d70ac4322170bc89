/**
  Which of the keywords `handleAction` looks for occur in each of the nine
  action labels of the simulation: "исключ", "Исключить", "нарушен",
  "Оспорить", "Использовать" and "допустим". A label lacks a keyword when it
  lacks one of the keyword's characters.

  Each lemma states one (label, keyword) fact: every such fact is a search
  over the label's positions, and several of them in one proof obligation
  cost the solver far more than the sum of their parts.
 */
module ActionLabels {
  import opened Text

  lemma UseAsEvidenceLacksExcludeStem()
    ensures !Contains("Использовать как доказательство", "исключ")
  {
    MissingChar("Использовать как доказательство", "исключ", 0);
  }

  lemma UseAsEvidenceLacksExcludeVerb()
    ensures !Contains("Использовать как доказательство", "Исключить")
  {
    MissingChar("Использовать как доказательство", "Исключить", 4);
  }

  lemma UseAsEvidenceLacksViolationStem()
    ensures !Contains("Использовать как доказательство", "нарушен")
  {
    MissingChar("Использовать как доказательство", "нарушен", 0);
  }

  lemma UseAsEvidenceLacksContestVerb()
    ensures !Contains("Использовать как доказательство", "Оспорить")
  {
    MissingChar("Использовать как доказательство", "Оспорить", 0);
  }

  lemma UseAsEvidenceHasUseVerb()
    ensures Contains("Использовать как доказательство", "Использовать")
  {
    assert ContainsAt("Использовать как доказательство", "Использовать", 0);
  }

  lemma ReinforceLacksExcludeStem()
    ensures !Contains("Усилить другими материалами", "исключ")
  {
    MissingChar("Усилить другими материалами", "исключ", 2);
  }

  lemma ReinforceLacksExcludeVerb()
    ensures !Contains("Усилить другими материалами", "Исключить")
  {
    MissingChar("Усилить другими материалами", "Исключить", 0);
  }

  lemma ReinforceLacksViolationStem()
    ensures !Contains("Усилить другими материалами", "нарушен")
  {
    MissingChar("Усилить другими материалами", "нарушен", 0);
  }

  lemma ReinforceLacksContestVerb()
    ensures !Contains("Усилить другими материалами", "Оспорить")
  {
    MissingChar("Усилить другими материалами", "Оспорить", 0);
  }

  lemma ReinforceLacksUseVerb()
    ensures !Contains("Усилить другими материалами", "Использовать")
  {
    MissingChar("Усилить другими материалами", "Использовать", 0);
  }

  lemma ReinforceLacksAdmissibleStem()
    ensures !Contains("Усилить другими материалами", "допустим")
  {
    MissingChar("Усилить другими материалами", "допустим", 1);
  }

  lemma PostponeLacksExcludeStem()
    ensures !Contains("Отложить", "исключ")
  {
    MissingChar("Отложить", "исключ", 1);
  }

  lemma PostponeLacksExcludeVerb()
    ensures !Contains("Отложить", "Исключить")
  {
    MissingChar("Отложить", "Исключить", 0);
  }

  lemma PostponeLacksViolationStem()
    ensures !Contains("Отложить", "нарушен")
  {
    MissingChar("Отложить", "нарушен", 0);
  }

  lemma PostponeLacksContestVerb()
    ensures !Contains("Отложить", "Оспорить")
  {
    MissingChar("Отложить", "Оспорить", 1);
  }

  lemma PostponeLacksUseVerb()
    ensures !Contains("Отложить", "Использовать")
  {
    MissingChar("Отложить", "Использовать", 0);
  }

  lemma PostponeLacksAdmissibleStem()
    ensures !Contains("Отложить", "допустим")
  {
    MissingChar("Отложить", "допустим", 0);
  }

  lemma ClaimViolationLacksExcludeStem()
    ensures !Contains("Заявить о нарушении", "исключ")
  {
    MissingChar("Заявить о нарушении", "исключ", 1);
  }

  lemma ClaimViolationLacksExcludeVerb()
    ensures !Contains("Заявить о нарушении", "Исключить")
  {
    MissingChar("Заявить о нарушении", "Исключить", 0);
  }

  lemma ClaimViolationHasViolationStem()
    ensures Contains("Заявить о нарушении", "нарушен")
  {
    assert ContainsAt("Заявить о нарушении", "нарушен", 10);
  }

  lemma MotionToExcludeHasExcludeStem()
    ensures Contains("Ходатайство об исключении", "исключ")
  {
    assert ContainsAt("Ходатайство об исключении", "исключ", 15);
  }

  lemma ContestLacksExcludeStem()
    ensures !Contains("Оспорить", "исключ")
  {
    MissingChar("Оспорить", "исключ", 2);
  }

  lemma ContestLacksExcludeVerb()
    ensures !Contains("Оспорить", "Исключить")
  {
    MissingChar("Оспорить", "Исключить", 0);
  }

  lemma ContestHasContestVerb()
    ensures Contains("Оспорить", "Оспорить")
  {
    assert ContainsAt("Оспорить", "Оспорить", 0);
  }

  lemma AdmitLacksExcludeStem()
    ensures !Contains("Признать допустимым", "исключ")
  {
    MissingChar("Признать допустимым", "исключ", 2);
  }

  lemma AdmitLacksExcludeVerb()
    ensures !Contains("Признать допустимым", "Исключить")
  {
    MissingChar("Признать допустимым", "Исключить", 0);
  }

  lemma AdmitLacksViolationStem()
    ensures !Contains("Признать допустимым", "нарушен")
  {
    MissingChar("Признать допустимым", "нарушен", 4);
  }

  lemma AdmitLacksContestVerb()
    ensures !Contains("Признать допустимым", "Оспорить")
  {
    MissingChar("Признать допустимым", "Оспорить", 0);
  }

  lemma AdmitHasAdmissibleStem()
    ensures Contains("Признать допустимым", "допустим")
  {
    assert ContainsAt("Признать допустимым", "допустим", 9);
  }

  lemma ExcludeButtonHasExcludeVerb()
    ensures Contains("Исключить", "Исключить")
  {
    assert ContainsAt("Исключить", "Исключить", 0);
  }

  lemma AskExplanationLacksExcludeStem()
    ensures !Contains("Запросить пояснения", "исключ")
  {
    MissingChar("Запросить пояснения", "исключ", 2);
  }

  lemma AskExplanationLacksExcludeVerb()
    ensures !Contains("Запросить пояснения", "Исключить")
  {
    MissingChar("Запросить пояснения", "Исключить", 0);
  }

  lemma AskExplanationLacksViolationStem()
    ensures !Contains("Запросить пояснения", "нарушен")
  {
    MissingChar("Запросить пояснения", "нарушен", 3);
  }

  lemma AskExplanationLacksContestVerb()
    ensures !Contains("Запросить пояснения", "Оспорить")
  {
    MissingChar("Запросить пояснения", "Оспорить", 0);
  }

  lemma AskExplanationLacksUseVerb()
    ensures !Contains("Запросить пояснения", "Использовать")
  {
    MissingChar("Запросить пояснения", "Использовать", 0);
  }

  lemma AskExplanationLacksAdmissibleStem()
    ensures !Contains("Запросить пояснения", "допустим")
  {
    MissingChar("Запросить пояснения", "допустим", 0);
  }
}
