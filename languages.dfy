/** Title-language selection: the twelve language ids (English first, then the
    order of the longname fields in the ACP metadata record), the default, and the
    choice of a localised title name with its English fallback. */
module Languages {
  import opened Platform

  const LangEnglish: U32 := 0
  const LangJapanese: U32 := 1
  const LangFrench: U32 := 2
  const LangGerman: U32 := 3
  const LangItalian: U32 := 4
  const LangSpanish: U32 := 5
  const LangSimplifiedChinese: U32 := 6
  const LangKorean: U32 := 7
  const LangDutch: U32 := 8
  const LangPortuguese: U32 := 9
  const LangRussian: U32 := 10
  const LangTraditionalChinese: U32 := 11

  /** The initial value of the title-language setting. */
  const TitleLangDefault: U32 := LangEnglish

  /** The language ids, listed in the order of the metadata's longname fields. */
  function LanguageIds(): (ids: seq<U32>)
    ensures |ids| == 12
    ensures forall i :: 0 <= i < |ids| ==> ids[i] == i
    ensures ids[0] == TitleLangDefault
  {
    [LangEnglish, LangJapanese, LangFrench, LangGerman, LangItalian, LangSpanish,
     LangSimplifiedChinese, LangKorean, LangDutch, LangPortuguese, LangRussian,
     LangTraditionalChinese]
  }

  /** The longname fields of a metadata record, in the order of the record. */
  function Longnames(meta: MetaXml): (names: seq<string>)
    ensures |names| == |LanguageIds()|
  {
    [meta.longnameEn, meta.longnameJa, meta.longnameFr, meta.longnameDe,
     meta.longnameIt, meta.longnameEs, meta.longnameZhs, meta.longnameKo,
     meta.longnameNl, meta.longnamePt, meta.longnameRu, meta.longnameZht]
  }

  /** The field the language switch picks: one per id, English for 0 and for any unknown id. */
  function SelectedLongname(meta: MetaXml, titleLang: U32): string
  {
    if titleLang == LangJapanese then meta.longnameJa
    else if titleLang == LangFrench then meta.longnameFr
    else if titleLang == LangGerman then meta.longnameDe
    else if titleLang == LangItalian then meta.longnameIt
    else if titleLang == LangSpanish then meta.longnameEs
    else if titleLang == LangSimplifiedChinese then meta.longnameZhs
    else if titleLang == LangKorean then meta.longnameKo
    else if titleLang == LangDutch then meta.longnameNl
    else if titleLang == LangPortuguese then meta.longnamePt
    else if titleLang == LangRussian then meta.longnameRu
    else if titleLang == LangTraditionalChinese then meta.longnameZht
    else meta.longnameEn
  }

  /** The title name shown for the configured language: that language's field when
      it is not empty, the English field otherwise. */
  function TitleLongname(meta: MetaXml, titleLang: U32): (name: string)
    ensures titleLang < 12 && Longnames(meta)[titleLang] != "" ==> name == Longnames(meta)[titleLang]
    ensures titleLang < 12 && Longnames(meta)[titleLang] == "" ==> name == meta.longnameEn
    ensures titleLang >= 12 ==> name == meta.longnameEn
    ensures name == meta.longnameEn || (name != "" && name in Longnames(meta))
    ensures meta.longnameEn != "" ==> name != ""
  {
    var selected := SelectedLongname(meta, titleLang);
    if selected == "" then meta.longnameEn else selected
  }
}
