/** The fixed prompt texts, the search-mode suffix, the preset cards and the choice of a turn's
    prompt (app.py:154-167, 198-222, 260-312, 326-333). */
module Prompts {
  import opened Wrappers

  /** The role prompt a fresh session starts with (lines 156-167). */
  const DefaultSystemPrompt: string :=
    "너는 Urban Air Mobility(UAM), eVTOL, vertiport, 도심항공교통과 관련된 "
    + "학술 논문을 찾아주고 정리해 주는 레퍼런스 도우미야. "
    + "사용자가 한국어로 관심 주제(예: 입지선정, vertiport 용량 분석, 스케줄링, 소음/수용성, "
    + "수요예측, 안전/위험도 등)를 설명하면, 가능한 범위 안에서 실제로 존재하는 영어 논문을 "
    + "위주로 추천해 줘. 각 논문마다 (1) 저자, 연도, 제목, 학회/저널, "
    + "(2) 한 줄 요약, (3) 핵심 키워드, (4) 왜 사용자의 주제에 도움이 되는지, "
    + "(5) 논문의 줄거리(연구 배경–문제 설정–방법–주요 결과–시사점)를 3~5문장 정도로 "
    + "자연스럽게 한국어로 정리해 줘. "
    + "(6) DOI를 알고 있을 때만 정확한 값을 적고, 확실하지 않으면 반드시 'DOI: unknown'이라고 써 줘. "
    + "절대로 추측해서 DOI를 만들어내지 마."

  // The four entries of the search-mode radio (line 201).
  const BasicMode: string := "기본 검색"
  const SurveyMode: string := "리뷰/Survey 위주"
  const MethodMode: string := "방법론/모델 위주"
  const CaseMode: string := "케이스 스터디 위주"
  const Modes: seq<string> := [BasicMode, SurveyMode, MethodMode, CaseMode]

  const SurveySuffix: string :=
    " 사용자가 제시한 주제와 관련된 review paper, survey paper, tutorial 논문을 "
    + "우선적으로 추천해 줘. 각 리뷰 논문이 커버하는 범위를 설명해 줘."
  const MethodSuffix: string :=
    " 통계/최적화/시뮬레이션/머신러닝 등 방법론 측면에서 의미 있는 논문을 "
    + "우선적으로 추천해 줘. 각 논문이 사용한 모델·알고리즘·시뮬레이션 구조를 짧게 정리해 줘."
  const CaseSuffix: string :=
    " 특정 도시, 국가, 실증 프로젝트(UAM 시범도시, 시험 노선 등)를 다룬 케이스 스터디 "
    + "논문을 우선적으로 추천해 줘. 어느 지역/도시를 대상으로 했는지도 함께 언급해 줘."

  /** Lines 205-220: the text appended for the selected mode; empty for the basic mode and for
      any string that is not one of the three other menu entries. */
  function ModeSuffix(mode: string): (r: string)
    ensures mode == SurveyMode ==> r == SurveySuffix
    ensures mode == MethodMode ==> r == MethodSuffix
    ensures mode == CaseMode ==> r == CaseSuffix
    ensures r == "" <==> mode != SurveyMode && mode != MethodMode && mode != CaseMode
  {
    if mode == SurveyMode then SurveySuffix
    else if mode == MethodMode then MethodSuffix
    else if mode == CaseMode then CaseSuffix
    else ""
  }

  /** Line 222: the applied system prompt followed by the mode suffix. */
  function EffectivePrompt(systemPrompt: string, mode: string): (r: string)
    ensures |r| == |systemPrompt| + |ModeSuffix(mode)|
    ensures r[..|systemPrompt|] == systemPrompt
    ensures r[|systemPrompt|..] == ModeSuffix(mode)
  {
    systemPrompt + ModeSuffix(mode)
  }

  /** For one applied prompt, two modes give the same effective prompt exactly when they give the same suffix. */
  lemma EffectivePromptDeterminesSuffix(systemPrompt: string, m1: string, m2: string)
    ensures EffectivePrompt(systemPrompt, m1) == EffectivePrompt(systemPrompt, m2) <==> ModeSuffix(m1) == ModeSuffix(m2)
  {
  }

  /** The basic mode sends the applied prompt unchanged. */
  lemma BasicModeAddsNothing(systemPrompt: string)
    ensures EffectivePrompt(systemPrompt, BasicMode) == systemPrompt
  {
  }

  /** The four menu entries give four distinct effective prompts, whatever prompt is applied. */
  lemma MenuModesDistinct(systemPrompt: string)
    ensures forall i, j :: 0 <= i < j < |Modes| ==> EffectivePrompt(systemPrompt, Modes[i]) != EffectivePrompt(systemPrompt, Modes[j])
  {
  }

  // The three preset cards' example prompts (lines 275-278, 292-295, 309-312).
  const SitingPreset: string :=
    "대도시 내 UAM vertiport 입지선정과 관련된 학술 논문을 추천해 줘. "
    + "특히 GIS 분석, 다기준 의사결정(MCDM), AHP/ANP, 최적화 모델을 사용한 연구 위주로 알려줘."
  const CapacityPreset: string :=
    "UAM vertiport 용량 분석과 arrival/departure 스케줄링 관련 논문을 추천해 줘. "
    + "시뮬레이션(DES, 에이전트 기반, microsimulation)이나 최적화 모델을 사용한 연구 위주로 알려줘."
  const AcceptancePreset: string :=
    "UAM 서비스에 대한 대중 수용성, 소음에 대한 인식, 안전/위험 인식, 사회적 수용성을 분석한 논문들을 추천해 줘. "
    + "설문 기반 연구나 stated preference/choice experiment를 사용한 논문이 있으면 특히 알려줘."

  /** Lines 260-312: `preset_prompt` starts as `None` and each clicked card overwrites it in
      order, so the last clicked card wins. */
  function PressedPreset(siting: bool, capacity: bool, acceptance: bool): (r: Option<string>)
    ensures r.None? <==> !siting && !capacity && !acceptance
    ensures acceptance ==> r == Some(AcceptancePreset)
    ensures !acceptance && capacity ==> r == Some(CapacityPreset)
    ensures !acceptance && !capacity && siting ==> r == Some(SitingPreset)
    ensures r.Some? ==> Truthy(r)
  {
    var p0: Option<string> := None;
    var p1 := if siting then Some(SitingPreset) else p0;
    var p2 := if capacity then Some(CapacityPreset) else p1;
    if acceptance then Some(AcceptancePreset) else p2
  }

  /** Lines 328-333: chat input that is truthy wins; a truthy preset is used only without one;
      otherwise there is no prompt. A chosen prompt is always truthy, so the test `if prompt:`
      at line 335 holds exactly when a prompt was chosen. */
  function SelectPrompt(userInput: Option<string>, preset: Option<string>): (r: Option<string>)
    ensures Truthy(userInput) ==> r == userInput
    ensures !Truthy(userInput) && Truthy(preset) ==> r == preset
    ensures r.None? <==> !Truthy(userInput) && !Truthy(preset)
    ensures r.Some? ==> Truthy(r)
  {
    if Truthy(preset) && !Truthy(userInput) then preset
    else if Truthy(userInput) then userInput
    else None
  }
}
