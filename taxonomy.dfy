/** The collector's static tables: the 39 locales with the language codes the
    Pixabay and Pexels searches take (an empty code means the search has no
    filter for that locale), the 12 image categories with their keyword lists
    per base language, the bucket targets, the keyword lookup with its fallback
    chain and the two-phase order in which locales are collected. */
module Taxonomy {
  import opened Strings

  datatype LanguageConfig = LanguageConfig(code: string, name: string, pixabay: string, pexels: string)

  /** Collector locales, in the order of the `LANGUAGES` table. */
  const LANGUAGES: seq<LanguageConfig> := [
    LanguageConfig("ja_JP", "Japanese", "ja", "ja"),
    LanguageConfig("ko_KR", "Korean", "ko", "ko"),
    LanguageConfig("fr_FR", "French", "fr", "fr"),
    LanguageConfig("de_DE", "German", "de", "de"),
    LanguageConfig("ar_AE", "Arabic (UAE)", "ar", "ar"),
    LanguageConfig("ar_EG", "Arabic (Egypt)", "ar", "ar"),
    LanguageConfig("ar_SA", "Arabic (Saudi)", "ar", "ar"),
    LanguageConfig("da_DK", "Danish", "da", "da"),
    LanguageConfig("de_AT", "German (Austria)", "de", "de"),
    LanguageConfig("de_CH", "German (Switzerland)", "de", "de"),
    LanguageConfig("es_CL", "Spanish (Chile)", "es", "es"),
    LanguageConfig("es_ES", "Spanish (Spain)", "es", "es"),
    LanguageConfig("es_MX", "Spanish (Mexico)", "es", "es"),
    LanguageConfig("es_US", "Spanish (US)", "es", "es"),
    LanguageConfig("fi_FI", "Finnish", "fi", "fi"),
    LanguageConfig("fr_BE", "French (Belgium)", "fr", "fr"),
    LanguageConfig("fr_CA", "French (Canada)", "fr", "fr"),
    LanguageConfig("fr_CH", "French (Switzerland)", "fr", "fr"),
    LanguageConfig("he_IL", "Hebrew", "", ""),
    LanguageConfig("hi_IN", "Hindi", "", ""),
    LanguageConfig("id_ID", "Indonesian", "", "id"),
    LanguageConfig("it_CH", "Italian (Switzerland)", "it", "it"),
    LanguageConfig("it_IT", "Italian (Italy)", "it", "it"),
    LanguageConfig("ms_MY", "Malay", "", ""),
    LanguageConfig("nl_BE", "Dutch (Belgium)", "nl", "nl"),
    LanguageConfig("nl_NL", "Dutch (Netherlands)", "nl", "nl"),
    LanguageConfig("no_NO", "Norwegian", "no", "no"),
    LanguageConfig("pl_PL", "Polish", "pl", "pl"),
    LanguageConfig("pt_BR", "Portuguese (Brazil)", "pt", "pt"),
    LanguageConfig("pt_PT", "Portuguese (Portugal)", "pt", "pt"),
    LanguageConfig("ru_RU", "Russian", "ru", "ru"),
    LanguageConfig("sv_SE", "Swedish", "sv", "sv"),
    LanguageConfig("th_TH", "Thai", "th", "th"),
    LanguageConfig("tr_TR", "Turkish", "tr", "tr"),
    LanguageConfig("uk_UA", "Ukrainian", "", ""),
    LanguageConfig("vi_VN", "Vietnamese", "vi", "vi"),
    LanguageConfig("zh_CN", "Chinese (Simplified)", "zh", "zh"),
    LanguageConfig("zh_HK", "Chinese (Hong Kong)", "zh", "zh"),
    LanguageConfig("zh_TW", "Chinese (Traditional)", "zh", "zh")
  ]

  /** The image categories, one per key of the `CATEGORIES` object. */
  datatype Category =
    | ArtsIllustrations | DailyObjects | Documents | FacesPeople | HandwrittenNotes | IndoorEnvironments
    | PlacesLandscapes | SceneTexts | Animals | Foods | Screenshots | GraphsCharts

  /** The key of a category in `CATEGORIES`, also stored as a photo's `imageType`. */
  function Key(c: Category): string {
    match c
    case ArtsIllustrations => "arts_illustrations"
    case DailyObjects => "daily_objects"
    case Documents => "documents"
    case FacesPeople => "faces_people"
    case HandwrittenNotes => "handwritten_notes"
    case IndoorEnvironments => "indoor_environments"
    case PlacesLandscapes => "places_landscapes"
    case SceneTexts => "scene_texts"
    case Animals => "animals"
    case Foods => "foods"
    case Screenshots => "screenshots"
    case GraphsCharts => "graphs_charts"
  }

  /** `Object.keys(CATEGORIES)`: the categories in declaration order. */
  const CATEGORIES: seq<Category> := [
    ArtsIllustrations, DailyObjects, Documents, FacesPeople, HandwrittenNotes, IndoorEnvironments,
    PlacesLandscapes, SceneTexts, Animals, Foods, Screenshots, GraphsCharts
  ]

  /** `CATEGORIES[categoryKey].keywords`: keyword lists per base language. */
  function CategoryKeywords(c: Category): map<string, seq<string>> {
    match c
    case ArtsIllustrations => ARTS_ILLUSTRATIONS_KEYWORDS
    case DailyObjects => DAILY_OBJECTS_KEYWORDS
    case Documents => DOCUMENTS_KEYWORDS
    case FacesPeople => FACES_PEOPLE_KEYWORDS
    case HandwrittenNotes => HANDWRITTEN_NOTES_KEYWORDS
    case IndoorEnvironments => INDOOR_ENVIRONMENTS_KEYWORDS
    case PlacesLandscapes => PLACES_LANDSCAPES_KEYWORDS
    case SceneTexts => SCENE_TEXTS_KEYWORDS
    case Animals => ANIMALS_KEYWORDS
    case Foods => FOODS_KEYWORDS
    case Screenshots => SCREENSHOTS_KEYWORDS
    case GraphsCharts => GRAPHS_CHARTS_KEYWORDS
  }

  const ARTS_ILLUSTRATIONS_KEYWORDS: map<string, seq<string>> := map[
    "en" := ["art", "painting", "drawing", "illustration", "sketch", "artwork", "design", "creative"],
    "es" := ["arte", "pintura", "dibujo", "ilustración", "diseño", "creativo"],
    "fr" := ["art", "peinture", "dessin", "illustration", "conception", "créatif"],
    "de" := ["kunst", "malerei", "zeichnung", "illustration", "design", "kreativ"],
    "zh" := ["艺术", "绘画", "插图", "设计", "创意"],
    "ja" := ["アート", "絵画", "イラスト", "デザイン", "創造"],
    "ar" := ["فن", "رسم", "توضيح", "تصميم", "إبداع"],
    "ru" := ["искусство", "живопись", "рисование", "иллюстрация", "дизайн"],
    "ko" := ["예술", "그림", "일러스트", "디자인", "창작"]
  ]

  const DAILY_OBJECTS_KEYWORDS: map<string, seq<string>> := map[
    "en" := ["objects", "items", "tools", "household", "everyday", "things", "products"],
    "es" := ["objetos", "artículos", "herramientas", "hogar", "cotidiano", "productos"],
    "fr" := ["objets", "articles", "outils", "maison", "quotidien", "produits"],
    "de" := ["objekte", "gegenstände", "werkzeuge", "haushalt", "alltag", "produkte"],
    "zh" := ["物品", "工具", "家居", "日常用品", "产品"],
    "ja" := ["オブジェクト", "道具", "家庭用品", "日用品", "製品"],
    "ar" := ["أشياء", "أدوات", "منزل", "يومي", "منتجات"],
    "ru" := ["предметы", "инструменты", "домашний", "повседневный", "продукты"],
    "ko" := ["물건", "도구", "가정용품", "일상용품", "제품"]
  ]

  const DOCUMENTS_KEYWORDS: map<string, seq<string>> := map[
    "en" := ["document", "paper", "form", "certificate", "letter", "text", "paperwork"],
    "es" := ["documento", "papel", "formulario", "certificado", "carta", "papeleo"],
    "fr" := ["document", "papier", "formulaire", "certificat", "lettre", "paperasse"],
    "de" := ["dokument", "papier", "formular", "zertifikat", "brief", "unterlagen"],
    "zh" := ["文档", "文件", "证书", "信件", "表格"],
    "ja" := ["文書", "書類", "証明書", "手紙", "フォーム"],
    "ar" := ["وثيقة", "ورقة", "شهادة", "رسالة", "استمارة"],
    "ru" := ["документ", "бумага", "сертификат", "письмо", "форма"],
    "ko" := ["문서", "서류", "증명서", "편지", "양식"]
  ]

  const FACES_PEOPLE_KEYWORDS: map<string, seq<string>> := map[
    "en" := ["people", "person", "face", "portrait", "human", "family", "group"],
    "es" := ["personas", "persona", "cara", "retrato", "humano", "familia", "grupo"],
    "fr" := ["personnes", "personne", "visage", "portrait", "humain", "famille", "groupe"],
    "de" := ["menschen", "person", "gesicht", "porträt", "mensch", "familie", "gruppe"],
    "zh" := ["人", "面孔", "肖像", "家庭", "群体"],
    "ja" := ["人", "顔", "肖像", "家族", "グループ"],
    "ar" := ["أشخاص", "وجه", "صورة", "عائلة", "مجموعة"],
    "ru" := ["люди", "человек", "лицо", "портрет", "семья", "группа"],
    "ko" := ["사람", "얼굴", "초상화", "가족", "그룹"]
  ]

  const HANDWRITTEN_NOTES_KEYWORDS: map<string, seq<string>> := map[
    "en" := ["handwriting", "notes", "handwritten", "writing", "manuscript", "notebook"],
    "es" := ["escritura a mano", "notas", "manuscrito", "cuaderno"],
    "fr" := ["écriture manuscrite", "notes", "manuscrit", "carnet"],
    "de" := ["handschrift", "notizen", "handgeschrieben", "manuskript", "notizbuch"],
    "zh" := ["手写", "笔记", "手稿", "笔记本"],
    "ja" := ["手書き", "ノート", "手稿", "ノートブック"],
    "ar" := ["خط اليد", "ملاحظات", "مخطوطة", "دفتر"],
    "ru" := ["почерк", "заметки", "рукопись", "блокнот"],
    "ko" := ["손글씨", "노트", "수고", "공책"]
  ]

  const INDOOR_ENVIRONMENTS_KEYWORDS: map<string, seq<string>> := map[
    "en" := ["indoor", "interior", "room", "office", "home", "building", "inside"],
    "es" := ["interior", "habitación", "oficina", "casa", "edificio", "dentro"],
    "fr" := ["intérieur", "chambre", "bureau", "maison", "bâtiment", "dedans"],
    "de" := ["innen", "zimmer", "büro", "haus", "gebäude", "drinnen"],
    "zh" := ["室内", "房间", "办公室", "家", "建筑"],
    "ja" := ["室内", "部屋", "オフィス", "家", "建物"],
    "ar" := ["داخلي", "غرفة", "مكتب", "منزل", "مبنى"],
    "ru" := ["интерьер", "комната", "офис", "дом", "здание"],
    "ko" := ["실내", "방", "사무실", "집", "건물"]
  ]

  const PLACES_LANDSCAPES_KEYWORDS: map<string, seq<string>> := map[
    "en" := ["landscape", "nature", "outdoor", "scenery", "place", "location", "view"],
    "es" := ["paisaje", "naturaleza", "exterior", "escenario", "lugar", "ubicación"],
    "fr" := ["paysage", "nature", "extérieur", "paysage", "lieu", "emplacement"],
    "de" := ["landschaft", "natur", "draußen", "szenerie", "ort", "standort"],
    "zh" := ["风景", "自然", "户外", "景色", "地点"],
    "ja" := ["風景", "自然", "屋外", "景色", "場所"],
    "ar" := ["منظر طبيعي", "طبيعة", "خارجي", "مكان", "موقع"],
    "ru" := ["пейзаж", "природа", "на улице", "место", "локация"],
    "ko" := ["풍경", "자연", "야외", "경치", "장소"]
  ]

  const SCENE_TEXTS_KEYWORDS: map<string, seq<string>> := map[
    "en" := ["sign", "text", "writing", "words", "billboard", "street", "signage"],
    "es" := ["señal", "texto", "escritura", "palabras", "cartelera", "señalización"],
    "fr" := ["signe", "texte", "écriture", "mots", "panneau", "signalisation"],
    "de" := ["schild", "text", "schrift", "wörter", "billboard", "beschilderung"],
    "zh" := ["标志", "文字", "街道标识", "广告牌"],
    "ja" := ["看板", "テキスト", "文字", "標識", "掲示板"],
    "ar" := ["علامة", "نص", "كتابة", "لافتة", "إشارة"],
    "ru" := ["знак", "текст", "надпись", "вывеска", "указатель"],
    "ko" := ["표지판", "텍스트", "문자", "간판", "표시"]
  ]

  const ANIMALS_KEYWORDS: map<string, seq<string>> := map[
    "en" := ["animals", "pets", "wildlife", "cat", "dog", "bird", "nature"],
    "es" := ["animales", "mascotas", "vida silvestre", "gato", "perro", "pájaro"],
    "fr" := ["animaux", "animaux de compagnie", "faune", "chat", "chien", "oiseau"],
    "de" := ["tiere", "haustiere", "wildtiere", "katze", "hund", "vogel"],
    "zh" := ["动物", "宠物", "野生动物", "猫", "狗", "鸟"],
    "ja" := ["動物", "ペット", "野生動物", "猫", "犬", "鳥"],
    "ar" := ["حيوانات", "حيوانات أليفة", "حياة برية", "قطة", "كلب", "طائر"],
    "ru" := ["животные", "домашние животные", "дикая природа", "кот", "собака", "птица"],
    "ko" := ["동물", "애완동물", "야생동물", "고양이", "개", "새"]
  ]

  const FOODS_KEYWORDS: map<string, seq<string>> := map[
    "en" := ["food", "meal", "cooking", "dish", "recipe", "cuisine", "eating"],
    "es" := ["comida", "comida", "cocina", "plato", "receta", "cocina"],
    "fr" := ["nourriture", "repas", "cuisine", "plat", "recette", "gastronomie"],
    "de" := ["essen", "mahlzeit", "kochen", "gericht", "rezept", "küche"],
    "zh" := ["食物", "餐", "烹饪", "菜肴", "食谱"],
    "ja" := ["食べ物", "食事", "料理", "皿", "レシピ"],
    "ar" := ["طعام", "وجبة", "طبخ", "طبق", "وصفة"],
    "ru" := ["еда", "еда", "приготовление", "блюдо", "рецепт"],
    "ko" := ["음식", "식사", "요리", "요리", "레시피"]
  ]

  const SCREENSHOTS_KEYWORDS: map<string, seq<string>> := map[
    "en" := ["screenshot", "screen", "computer", "software", "app", "interface", "digital"],
    "es" := ["captura de pantalla", "pantalla", "computadora", "software", "aplicación"],
    "fr" := ["capture d'écran", "écran", "ordinateur", "logiciel", "application"],
    "de" := ["bildschirmfoto", "bildschirm", "computer", "software", "anwendung"],
    "zh" := ["截图", "屏幕", "计算机", "软件", "应用程序"],
    "ja" := ["スクリーンショット", "画面", "コンピュータ", "ソフトウェア", "アプリ"],
    "ar" := ["لقطة شاشة", "شاشة", "حاسوب", "برنامج", "تطبيق"],
    "ru" := ["скриншот", "экран", "компьютер", "программа", "приложение"],
    "ko" := ["스크린샷", "화면", "컴퓨터", "소프트웨어", "앱"]
  ]

  const GRAPHS_CHARTS_KEYWORDS: map<string, seq<string>> := map[
    "en" := ["chart", "graph", "data", "statistics", "diagram", "infographic", "visualization"],
    "es" := ["gráfico", "datos", "estadísticas", "diagrama", "infografía"],
    "fr" := ["graphique", "données", "statistiques", "diagramme", "infographie"],
    "de" := ["diagramm", "daten", "statistiken", "schaubild", "infografik"],
    "zh" := ["图表", "数据", "统计", "图解", "信息图"],
    "ja" := ["チャート", "データ", "統計", "図表", "インフォグラフィック"],
    "ar" := ["مخطط", "بيانات", "إحصائيات", "رسم بياني", "إنفوجرافيك"],
    "ru" := ["график", "данные", "статистика", "диаграмма", "инфографика"],
    "ko" := ["차트", "데이터", "통계", "다이어그램", "인포그래픽"]
  ]
  /** The collector's overall target. */
  const TARGET_TOTAL: nat := 150000

  /** `Math.floor(targetTotal / LANGUAGES.length)`. */
  function TargetPerLanguage(): nat {
    TARGET_TOTAL / |LANGUAGES|
  }

  /** `Math.floor(targetPerLanguage / Object.keys(CATEGORIES).length)`: the
      target of one (locale, category) bucket. */
  function TargetPerCategory(): nat {
    TargetPerLanguage() / |CATEGORIES|
  }

  lemma Targets()
    ensures |LANGUAGES| == 39 && |CATEGORIES| == 12
    ensures TargetPerLanguage() == 3846 && TargetPerCategory() == 320
    ensures TargetPerCategory() * |CATEGORIES| * |LANGUAGES| <= TARGET_TOTAL
  {
  }

  /** `languageCode.split('_')[0]`. */
  function BaseLanguage(code: string): (base: string)
    ensures StartsWith(code, base) && '_' !in base
  {
    BeforeFirst(code, '_')
  }

  /** The lookup of `getKeywords` on one category's keyword table:
      `keywords[baseLang] || keywords[languageCode] || keywords.en || []`.
      An array is truthy even when empty, so the first list present wins. */
  function LookupKeywords(table: map<string, seq<string>>, code: string): seq<string> {
    var base := BaseLanguage(code);
    if base in table then table[base]
    else if code in table then table[code]
    else if "en" in table then table["en"]
    else []
  }

  /** `getKeywords(categoryKey, languageCode)`. */
  function GetKeywords(category: Category, code: string): seq<string> {
    LookupKeywords(CategoryKeywords(category), code)
  }

  /** The base language is consulted before the full locale code: a table
      holding both answers with the base-language list (the comment beside the
      source claims the opposite order). With neither, every locale falls
      through to English, and with no English list either the answer is empty. */
  lemma LookupOrder(table: map<string, seq<string>>, code: string)
    ensures BaseLanguage(code) in table ==> LookupKeywords(table, code) == table[BaseLanguage(code)]
    ensures BaseLanguage(code) !in table && code in table ==> LookupKeywords(table, code) == table[code]
    ensures BaseLanguage(code) !in table && code !in table ==>
      LookupKeywords(table, code) == (if "en" in table then table["en"] else [])
  {
  }

  /** When no key of the table contains `_` (as in every table of the
      collector), the full-code tier never decides: the answer is the
      base-language list, else English, else empty. */
  lemma FullCodeTierNeverDecides(table: map<string, seq<string>>, code: string)
    requires forall k :: k in table ==> '_' !in k
    ensures LookupKeywords(table, code) ==
      if BaseLanguage(code) in table then table[BaseLanguage(code)]
      else if "en" in table then table["en"] else []
  {
    if BaseLanguage(code) !in table && code in table {
      BeforeFirstWithoutSep(code, '_');
    }
  }

  lemma {:induction false} BeforeFirstWithoutSep(s: string, sep: char)
    requires sep !in s
    ensures BeforeFirst(s, sep) == s
  {
    if s != [] {
      assert sep !in s[1..];
      BeforeFirstWithoutSep(s[1..], sep);
    }
  }

  /** A keyword table of the collector: it has an English list, every list is
      non-empty, and no key contains `_`. */
  predicate TableShape(table: map<string, seq<string>>) {
    "en" in table && forall l :: l in table ==> table[l] != [] && '_' !in l
  }

  lemma ArtsIllustrationsShape() ensures TableShape(ARTS_ILLUSTRATIONS_KEYWORDS) {}
  lemma DailyObjectsShape() ensures TableShape(DAILY_OBJECTS_KEYWORDS) {}
  lemma DocumentsShape() ensures TableShape(DOCUMENTS_KEYWORDS) {}
  lemma FacesPeopleShape() ensures TableShape(FACES_PEOPLE_KEYWORDS) {}
  lemma HandwrittenNotesShape() ensures TableShape(HANDWRITTEN_NOTES_KEYWORDS) {}
  lemma IndoorEnvironmentsShape() ensures TableShape(INDOOR_ENVIRONMENTS_KEYWORDS) {}
  lemma PlacesLandscapesShape() ensures TableShape(PLACES_LANDSCAPES_KEYWORDS) {}
  lemma SceneTextsShape() ensures TableShape(SCENE_TEXTS_KEYWORDS) {}
  lemma AnimalsShape() ensures TableShape(ANIMALS_KEYWORDS) {}
  lemma FoodsShape() ensures TableShape(FOODS_KEYWORDS) {}
  lemma ScreenshotsShape() ensures TableShape(SCREENSHOTS_KEYWORDS) {}
  lemma GraphsChartsShape() ensures TableShape(GRAPHS_CHARTS_KEYWORDS) {}

  lemma CategoryShape(category: Category)
    ensures TableShape(CategoryKeywords(category))
  {
    match category
    case ArtsIllustrations => ArtsIllustrationsShape();
    case DailyObjects => DailyObjectsShape();
    case Documents => DocumentsShape();
    case FacesPeople => FacesPeopleShape();
    case HandwrittenNotes => HandwrittenNotesShape();
    case IndoorEnvironments => IndoorEnvironmentsShape();
    case PlacesLandscapes => PlacesLandscapesShape();
    case SceneTexts => SceneTextsShape();
    case Animals => AnimalsShape();
    case Foods => FoodsShape();
    case Screenshots => ScreenshotsShape();
    case GraphsCharts => GraphsChartsShape();
  }

  /** On a keyword table of the collector's shape the lookup never comes back
      empty: it answers the base-language list when there is one and the
      English list otherwise. */
  lemma ShapedLookup(table: map<string, seq<string>>, code: string)
    requires TableShape(table)
    ensures LookupKeywords(table, code) != []
    ensures LookupKeywords(table, code) ==
      if BaseLanguage(code) in table then table[BaseLanguage(code)] else table["en"]
  {
    FullCodeTierNeverDecides(table, code);
  }

  /** Every bucket of the run has keywords to search for, so no bucket ends
      with zero attempts. */
  lemma EveryBucketHasKeywords(category: Category, code: string)
    ensures GetKeywords(category, code) != []
  {
    CategoryShape(category);
    ShapedLookup(CategoryKeywords(category), code);
  }

  /** The Pixabay codes of the well-supported languages collected first. */
  const PRIORITY_CODES: seq<string> := ["en", "es", "fr", "de", "it", "pt", "ru", "zh", "ja", "ko"]

  /** `lang.pixabay && [...].includes(lang.pixabay)`. */
  predicate HighPriority(lang: LanguageConfig) {
    lang.pixabay != "" && lang.pixabay in PRIORITY_CODES
  }

  /** `Array.prototype.filter` on locales. */
  function Filter(langs: seq<LanguageConfig>, keep: LanguageConfig -> bool): (r: seq<LanguageConfig>)
    ensures |r| <= |langs|
  {
    if langs == [] then []
    else if keep(langs[0]) then [langs[0]] + Filter(langs[1..], keep)
    else Filter(langs[1..], keep)
  }

  /** The filter keeps exactly the locales the predicate accepts. */
  lemma {:induction false} FilterMembers(langs: seq<LanguageConfig>, keep: LanguageConfig -> bool)
    ensures forall l :: l in Filter(langs, keep) <==> l in langs && keep(l)
  {
    if langs != [] {
      FilterMembers(langs[1..], keep);
      assert langs == [langs[0]] + langs[1..];
    }
  }

  /** Phase 1: the high-priority locales of `langs` (the `LANGUAGES` table),
      in table order. */
  function PhaseOne(langs: seq<LanguageConfig>): seq<LanguageConfig> {
    Filter(langs, HighPriority)
  }

  /** Phase 2: `LANGUAGES.filter(lang => !highPriorityLanguages.includes(lang))`. */
  function PhaseTwo(langs: seq<LanguageConfig>): seq<LanguageConfig> {
    Filter(langs, l => l !in PhaseOne(langs))
  }

  /** The order in which `startCollection` visits locales. */
  function CollectionOrder(langs: seq<LanguageConfig>): seq<LanguageConfig> {
    PhaseOne(langs) + PhaseTwo(langs)
  }

  lemma {:induction false} FilterAgrees(langs: seq<LanguageConfig>, f: LanguageConfig -> bool, g: LanguageConfig -> bool)
    requires forall l :: l in langs ==> f(l) == g(l)
    ensures Filter(langs, f) == Filter(langs, g)
  {
    if langs != [] {
      FilterAgrees(langs[1..], f, g);
    }
  }

  lemma {:induction false} FilterSplits(langs: seq<LanguageConfig>, f: LanguageConfig -> bool, g: LanguageConfig -> bool)
    requires forall l :: g(l) == !f(l)
    ensures multiset(Filter(langs, f) + Filter(langs, g)) == multiset(langs)
  {
    if langs != [] {
      FilterSplits(langs[1..], f, g);
      assert langs == [langs[0]] + langs[1..];
    }
  }

  /** Phase 1 holds exactly the locales whose Pixabay code is non-empty and in
      the shortlist, phase 2 exactly the others, in table order, and together
      they visit every locale exactly once. */
  lemma PhaseOrdering(langs: seq<LanguageConfig>)
    ensures forall l :: l in PhaseOne(langs) <==> l in langs && HighPriority(l)
    ensures PhaseTwo(langs) == Filter(langs, l => !HighPriority(l))
    ensures multiset(CollectionOrder(langs)) == multiset(langs)
  {
    FilterMembers(langs, HighPriority);
    FilterAgrees(langs, l => l !in PhaseOne(langs), l => !HighPriority(l));
    FilterSplits(langs, HighPriority, l => !HighPriority(l));
  }
}
