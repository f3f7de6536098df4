/**
 * `links/utils.py`: `determine_persona`, which reads the tags of a user's
 * completed links, credits each tag to the first category whose keyword it
 * contains (or half a point to GENERAL), picks the best-scoring category and
 * a level from the number of links, and looks up a title.
 *
 * Scores are kept doubled, so that GENERAL's half points are naturals: a
 * matched tag adds 2 to its category, an unmatched tag adds 1 to GENERAL,
 * and the threshold of 3 points becomes 6.
 */
module Persona {
  import opened Strings
  import opened Models
  import Ranking

  datatype Category = Tech | Economy | Politics | Society | Culture | General

  datatype Level = Lvl1 | Lvl2 | Lvl3

  /** The keys of `CATEGORY_KEYWORDS`, in dict order. */
  const KeywordCategories: seq<Category> := [Tech, Economy, Politics, Society, Culture]

  /** The keys of `scores`, in dict order: the keyword categories, then GENERAL. */
  const ScoreOrder: seq<Category> := [Tech, Economy, Politics, Society, Culture, General]

  const AllCategories: set<Category> := {Tech, Economy, Politics, Society, Culture, General}

  /** Doubled threshold: a best score under 3 points falls back to GENERAL. */
  const Threshold2: nat := 6

  const GhostTitle := "👻 투명한 유령"
  const GhostDesc := "아직 읽은 기사가 없어요!"

  /** `CATEGORY_KEYWORDS[c]`; GENERAL has no keywords. */
  function Keywords(c: Category): seq<string>
  {
    match c
    case Tech => ["AI", "반도체", "애플", "삼성", "IT", "개발", "코딩", "소프트웨어", "테크", "모바일", "게임", "과학"]
    case Economy => ["주식", "투자", "금리", "부동산", "시장", "환율", "은행", "경제", "재테크", "코스피", "나스닥"]
    case Politics => ["대통령", "국회", "선거", "정당", "법안", "정책", "외교", "북한", "총선", "의원"]
    case Society => ["사건", "사고", "날씨", "교통", "교육", "환경", "복지", "노동", "인권"]
    case Culture => ["영화", "드라마", "여행", "음식", "책", "예술", "공연", "연예", "스포츠"]
    case General => []
  }

  function CategoryName(c: Category): string
  {
    match c
    case Tech => "TECH"
    case Economy => "ECONOMY"
    case Politics => "POLITICS"
    case Society => "SOCIETY"
    case Culture => "CULTURE"
    case General => "GENERAL"
  }

  function LevelName(l: Level): string
  {
    match l
    case Lvl1 => "lvl1"
    case Lvl2 => "lvl2"
    case Lvl3 => "lvl3"
  }

  /** `PERSONA_TITLES[c][l]`. */
  function Title(c: Category, l: Level): string
  {
    match c
    case Tech => (match l case Lvl1 => "💾 IT 꿈나무" case Lvl2 => "💻 판교의 등대" case Lvl3 => "🤖 미래에서 온 터미네이터")
    case Economy => (match l case Lvl1 => "🪙 저금통 요정" case Lvl2 => "📈 차트 분석가" case Lvl3 => "🐺 여의도의 늑대")
    case Politics => (match l case Lvl1 => "📰 조간신문 독자" case Lvl2 => "⚖️ 여의도 평론가" case Lvl3 => "👑 킹메이커")
    case Society => (match l case Lvl1 => "👀 이웃집 관찰자" case Lvl2 => "📢 사회부 기자" case Lvl3 => "🌍 세상을 바꾸는 활동가")
    case Culture => (match l case Lvl1 => "🍿 팝콘 러버" case Lvl2 => "🎨 힙한 영감 수집가" case Lvl3 => "🍷 고독한 미식가")
    case General => (match l case Lvl1 => "🌱 뉴스 입문자" case Lvl2 => "📚 잡학다식 척척박사" case Lvl3 => "🧠 걸어다니는 백과사전")
  }

  /** The returned dict: the ghost title for no links, otherwise the persona. */
  datatype PersonaResult =
    | NoReads(title: string, desc: string)
    | Persona(title: string, category: Category, level: Level, readCount: nat)

  /** `any(k in tag for k in CATEGORY_KEYWORDS[c])`. */
  predicate Hits(tag: string, c: Category)
  {
    ContainsAny(tag, Keywords(c))
  }

  /** Index of the first category of `cats` from `from` on that `tag` hits: where `for … break` over them stops. */
  function FirstCategory(tag: string, cats: seq<Category>, from: nat): (r: Option<nat>)
    requires from <= |cats|
    ensures r.Some? ==> from <= r.value < |cats| && Hits(tag, cats[r.value])
    ensures r.Some? ==> forall j | from <= j < r.value :: !Hits(tag, cats[j])
    ensures r.None? ==> forall j | from <= j < |cats| :: !Hits(tag, cats[j])
    decreases |cats| - from
  {
    if from == |cats| then None
    else if Hits(tag, cats[from]) then Some(from)
    else FirstCategory(tag, cats, from + 1)
  }

  /**
   * The category a tag credits: the first keyword category, in dict order,
   * having a keyword that is a substring of the tag; None when there is none.
   */
  function CategoryOf(tag: string): Option<Category>
  {
    match FirstCategory(tag, KeywordCategories, 0)
    case None => None
    case Some(i) => Some(KeywordCategories[i])
  }

  /** The first hit is the only index `FirstCategory` can return. */
  lemma FirstCategoryExactly(tag: string, cats: seq<Category>, i: nat)
    requires i < |cats| && Hits(tag, cats[i]) && forall j | 0 <= j < i :: !Hits(tag, cats[j])
    ensures FirstCategory(tag, cats, 0) == Some(i)
  {
    var r := FirstCategory(tag, cats, 0);
    assert r.Some?;
    assert !(r.value < i);
    assert !(r.value > i);
  }

  /** A tag credits the `i`-th keyword category when that is the first one it hits. */
  lemma CategoryOfAt(tag: string, i: nat)
    requires i < |KeywordCategories|
    requires Hits(tag, KeywordCategories[i]) && forall j | 0 <= j < i :: !Hits(tag, KeywordCategories[j])
    ensures CategoryOf(tag) == Some(KeywordCategories[i])
  {
    FirstCategoryExactly(tag, KeywordCategories, i);
  }

  /** A tag that hits no keyword category credits GENERAL. */
  lemma CategoryOfNone(tag: string)
    requires forall j | 0 <= j < |KeywordCategories| :: !Hits(tag, KeywordCategories[j])
    ensures CategoryOf(tag) == None
  {
  }

  /** What one tag adds to the doubled score of `c`. */
  function Credit(tag: string, c: Category): nat
  {
    match CategoryOf(tag)
    case Some(d) => if d == c then 2 else 0
    case None => if c == General then 1 else 0
  }

  /** The doubled score of `c` after counting `tags`. */
  function Score2(tags: seq<string>, c: Category): nat
  {
    if tags == [] then 0 else Score2(tags[..|tags| - 1], c) + Credit(tags[|tags| - 1], c)
  }

  /** The `scores` dict after counting `tags`. */
  function Scores(tags: seq<string>): map<Category, nat>
  {
    map c | c in AllCategories :: Score2(tags, c)
  }

  lemma ScoreOrderInScores(s: map<Category, nat>)
    requires s.Keys == AllCategories
    ensures forall c | c in ScoreOrder :: c in s
  {
  }

  /** `max(scores, key=scores.get)`. */
  function Dominant(s: map<Category, nat>): Category
    requires s.Keys == AllCategories
  {
    ScoreOrderInScores(s);
    ScoreOrder[Ranking.BestIndex(ScoreOrder, s)]
  }

  function LevelOf(readCount: nat): (l: Level)
    ensures l == Lvl1 <==> readCount < 10
    ensures l == Lvl2 <==> 10 <= readCount < 50
    ensures l == Lvl3 <==> 50 <= readCount
  {
    if readCount < 10 then Lvl1 else if readCount < 50 then Lvl2 else Lvl3
  }

  /** What `determine_persona` returns for the completed links `links`. */
  function PersonaOf(links: seq<Link>): PersonaResult
  {
    if links == [] then NoReads(GhostTitle, GhostDesc)
    else
      var s := Scores(AllTags(links));
      var top := Dominant(s);
      var category := if s[top] < Threshold2 then General else top;
      var level := LevelOf(|links|);
      Persona(Title(category, level), category, level, |links|)
  }

  /** `determine_persona(completed_links)`: collect the tags, score them, pick the category and level. */
  method DeterminePersona(links: seq<Link>) returns (r: PersonaResult)
    ensures r == PersonaOf(links)
  {
    if |links| == 0 {
      return NoReads(GhostTitle, GhostDesc);
    }

    var allTags := CollectTags(links);
    var totalReadCount := |links|;

    var scores: map<Category, nat> := map[Tech := 0, Economy := 0, Politics := 0, Society := 0, Culture := 0];
    scores := scores[General := 0];

    for t := 0 to |allTags|
      invariant scores == Scores(allTags[..t])
    {
      ghost var before := scores;
      scores := ScoreTag(scores, allTags[t]);
      ScoresStep(allTags, t, before, scores);
    }
    assert allTags[..|allTags|] == allTags;

    var top := Dominant(scores);
    if scores[top] < Threshold2 {
      top := General;
    }

    var level := LevelOf(totalReadCount);
    r := Persona(Title(top, level), top, level, totalReadCount);
  }

  /**
   * The body of the loop over `all_tags`: credit the first matching keyword
   * category (and stop looking), or GENERAL when none matched.
   */
  method ScoreTag(scores: map<Category, nat>, tag: string) returns (after: map<Category, nat>)
    requires scores.Keys == AllCategories
    ensures after.Keys == AllCategories
    ensures forall c | c in AllCategories :: after[c] == scores[c] + Credit(tag, c)
  {
    after := scores;
    var matched := false;
    for j := 0 to |KeywordCategories|
      invariant after == scores && !matched
      invariant FirstCategory(tag, KeywordCategories, j) == FirstCategory(tag, KeywordCategories, 0)
    {
      var category := KeywordCategories[j];
      if Hits(tag, category) {
        after := after[category := after[category] + 2];
        matched := true;
        assert CategoryOf(tag) == Some(category);
        break;
      }
    }
    if !matched {
      after := after[General := after[General] + 1];
    }
  }

  /** One tag's step of the scoring loop agrees with `Scores`. */
  lemma ScoresStep(tags: seq<string>, t: nat, before: map<Category, nat>, after: map<Category, nat>)
    requires t < |tags| && before == Scores(tags[..t])
    requires after.Keys == AllCategories
    requires forall c | c in AllCategories :: after[c] == before[c] + Credit(tags[t], c)
    ensures after == Scores(tags[..t + 1])
  {
    forall c | c in AllCategories
      ensures after[c] == Score2(tags[..t + 1], c)
    {
      Score2Step(tags, t, c);
    }
  }

  lemma Score2Step(tags: seq<string>, t: nat, c: Category)
    requires t < |tags|
    ensures Score2(tags[..t + 1], c) == Score2(tags[..t], c) + Credit(tags[t], c)
  {
    assert tags[..t + 1][..t] == tags[..t];
  }
}

module PersonaFacts {
  import opened Strings
  import opened Models
  import opened Persona
  import Ranking

  /** Each tag credits exactly one category: 2 to a keyword category, or 1 to GENERAL when none matches. */
  lemma CreditOnce(tag: string, c: Category, d: Category)
    requires Credit(tag, c) > 0 && Credit(tag, d) > 0
    ensures c == d
    ensures Credit(tag, c) == (if c == General then 1 else 2)
  {
  }

  /**
   * The doubled scores add up to two points per matched tag and one per
   * unmatched tag: in original points, matched tags plus half the
   * unmatched ones.
   */
  lemma {:induction false} TotalScore(tags: seq<string>)
    ensures Score2(tags, Tech) + Score2(tags, Economy) + Score2(tags, Politics) + Score2(tags, Society)
            + Score2(tags, Culture) + 2 * Score2(tags, General) == 2 * |tags|
  {
    if tags != [] {
      TotalScore(tags[..|tags| - 1]);
      CreditSum(tags[|tags| - 1]);
    }
  }

  /** One tag adds two doubled points in all: to one keyword category, or twice one to GENERAL. */
  lemma CreditSum(tag: string)
    ensures Credit(tag, Tech) + Credit(tag, Economy) + Credit(tag, Politics) + Credit(tag, Society)
            + Credit(tag, Culture) + 2 * Credit(tag, General) == 2
  {
  }

  /** No completed links gives the ghost title, and only then. */
  lemma NoLinksIsGhost(links: seq<Link>)
    ensures PersonaOf(links).NoReads? <==> links == []
    ensures links == [] ==> PersonaOf(links) == NoReads("👻 투명한 유령", "아직 읽은 기사가 없어요!")
  {
  }

  /**
   * For some links: the category is GENERAL or a best-scoring category of at
   * least 3 points that beats every category before it in dict order; a best
   * score under 3 points gives GENERAL; the level goes by the number of
   * links; the title comes from the table.
   */
  lemma {:induction false} PersonaShape(links: seq<Link>)
    requires links != []
    ensures var r := PersonaOf(links);
      var s := Scores(AllTags(links));
      && r.Persona?
      && (r.category == General
          || (&& s[r.category] >= Threshold2
              && (forall c | c in AllCategories :: s[c] <= s[r.category])
              && (forall k, j | 0 <= j < k < |ScoreOrder| && ScoreOrder[k] == r.category ::
                    s[ScoreOrder[j]] < s[r.category])))
      && ((forall c | c in AllCategories :: s[c] < Threshold2) ==> r.category == General)
      && r.level == LevelOf(|links|)
      && r.readCount == |links|
      && r.title == Title(r.category, r.level)
  {
    DominantIsFirstMax(Scores(AllTags(links)));
  }

  /**
   * Conversely: a category of at least 3 points that scores best and beats
   * every category before it in dict order is the persona's category.
   */
  lemma {:induction false} PersonaFirstMaxWins(links: seq<Link>, c: Category)
    requires links != []
    requires var s := Scores(AllTags(links));
      && s[c] >= Threshold2
      && (forall c2 | c2 in AllCategories :: s[c2] <= s[c])
      && (forall k, j | 0 <= j < k < |ScoreOrder| && ScoreOrder[k] == c :: s[ScoreOrder[j]] < s[c])
    ensures PersonaOf(links).Persona? && PersonaOf(links).category == c
  {
    OnlyFirstMaxIsDominant(Scores(AllTags(links)), c);
  }

  /** A best-scoring category that beats every category before it in dict order is the one `max` picks. */
  lemma OnlyFirstMaxIsDominant(s: map<Category, nat>, c: Category)
    requires s.Keys == AllCategories
    requires forall c2 | c2 in AllCategories :: s[c2] <= s[c]
    requires forall k, j | 0 <= j < k < |ScoreOrder| && ScoreOrder[k] == c :: s[ScoreOrder[j]] < s[c]
    ensures Dominant(s) == c
  {
    DominantIsFirstMax(s);
    var d := Dominant(s);
    assert c in ScoreOrder && d in ScoreOrder;
    var kc :| 0 <= kc < |ScoreOrder| && ScoreOrder[kc] == c;
    var kd :| 0 <= kd < |ScoreOrder| && ScoreOrder[kd] == d;
    assert kc == kd;
  }

  /**
   * `max(scores, key=scores.get)` is a best-scoring category, and every
   * category before it in dict order scores strictly less.
   */
  lemma DominantIsFirstMax(s: map<Category, nat>)
    requires s.Keys == AllCategories
    ensures forall c | c in AllCategories :: s[c] <= s[Dominant(s)]
    ensures forall k, j | 0 <= j < k < |ScoreOrder| && ScoreOrder[k] == Dominant(s) :: s[ScoreOrder[j]] < s[Dominant(s)]
  {
    ScoreOrderInScores(s);
    var i := Ranking.BestIndex(ScoreOrder, s);
    var top := ScoreOrder[i];
    Ranking.BestBeatsRest(ScoreOrder, s, i);
    assert forall c | c in AllCategories :: c in ScoreOrder;
    forall k, j | 0 <= j < k < |ScoreOrder| && ScoreOrder[k] == top
      ensures s[ScoreOrder[j]] < s[top]
    {
      assert k == i;
    }
  }
}
