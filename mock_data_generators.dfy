/**
 * The mock-data generators of the content site (src/lib/mock-data-generators.ts):
 * the fixed authors and categories, `Math.random()` as an oracle, the
 * slug normaliser, and the article, comment and analytics generators.
 */
module MockDataGenerators {
  import opened Wrappers
  import opened JsSemantics
  import opened Types

  // ---------------------------------------------------------------------
  // Fixed data
  // ---------------------------------------------------------------------

  const AUTHORS: seq<Author> := [
    Author("author-1", "山田太郎", "/avatars/yamada.jpg",
           "フルスタックエンジニア。Next.jsとTypeScriptが得意です。", "Senior Developer"),
    Author("author-2", "佐藤花子", "/avatars/sato.jpg",
           "フロントエンドエンジニア。UI/UXデザインにも興味があります。", "Frontend Developer"),
    Author("author-3", "鈴木一郎", "/avatars/suzuki.jpg",
           "バックエンドエンジニア。クラウドアーキテクチャが専門です。", "Backend Developer"),
    Author("author-4", "田中美咲", "/avatars/tanaka.jpg",
           "DevOpsエンジニア。CI/CDパイプラインの構築が得意です。", "DevOps Engineer")
  ]

  const CATEGORIES: seq<Category> := [
    Category("cat-1", "Next.js", "nextjs", "Next.js関連の記事", "blue"),
    Category("cat-2", "TypeScript", "typescript", "TypeScript関連の記事", "indigo"),
    Category("cat-3", "React", "react", "React関連の記事", "cyan"),
    Category("cat-4", "Performance", "performance", "パフォーマンス最適化の記事", "green"),
    Category("cat-5", "Testing", "testing", "テスト関連の記事", "purple")
  ]

  const TITLE_TEMPLATES: seq<string> := [
    "{category}の基礎から応用まで完全ガイド",
    "{category}で実装する{feature}",
    "{category}のベストプラクティス{year}年版",
    "初心者でもわかる{category}入門",
    "{category}における{pattern}パターンの活用",
    "{category}のパフォーマンス最適化テクニック",
    "{category}での{problem}の解決方法",
    "{category}を使った{project}の構築",
    "{category}の新機能を徹底解説",
    "{category}のテスト戦略完全ガイド"
  ]

  const FEATURES: seq<string> := [
    "リアルタイムチャット", "ダッシュボード", "ECサイト", "ブログシステム",
    "タスク管理アプリ", "SNSクローン", "画像ギャラリー", "カレンダーアプリ"
  ]

  const PATTERNS: seq<string> := [
    "コンポジション", "レンダリング", "データフェッチング", "ステート管理",
    "エラーハンドリング", "キャッシング"
  ]

  const PROBLEMS: seq<string> := [
    "パフォーマンス問題", "SEO対策", "アクセシビリティ", "セキュリティ課題",
    "スケーラビリティ", "メモリリーク"
  ]

  const PROJECTS: seq<string> := [
    "SaaSアプリケーション", "コーポレートサイト", "ポートフォリオサイト",
    "オンラインストア", "ドキュメントサイト", "ランディングページ"
  ]

  /** The tag pool an article draws its tags from. */
  const TAGS: seq<string> := ["初心者向け", "中級者向け", "上級者向け", "Tips", "ハンズオン", "解説"]

  const COMMENT_AUTHORS: seq<string> := [
    "匿名ユーザー", "Next.js初心者", "フロントエンドエンジニア", "バックエンドエンジニア",
    "フルスタック開発者", "学生エンジニア", "ベテランエンジニア"
  ]

  const COMMENT_TEMPLATES: seq<string> := [
    "とても参考になりました！{specific}",
    "素晴らしい記事です。{specific}",
    "{specific}の部分が特に勉強になりました。",
    "この方法で実装してみたところ、うまくいきました！",
    "質問があります。{question}",
    "補足情報として、{addition}",
    "ありがとうございます。{thanks}"
  ]

  const SPECIFICS: seq<string> := [
    "コードの書き方", "パフォーマンスの改善方法", "エラーハンドリングの実装",
    "テストの書き方", "デプロイの手順"
  ]

  const QUESTIONS: seq<string> := [
    "TypeScriptでの型定義はどうすればよいでしょうか？",
    "この方法はNext.js 13でも使えますか？",
    "パフォーマンスへの影響はありますか？",
    "もう少し詳しく説明していただけますか？"
  ]

  const ADDITIONS: seq<string> := [
    "公式ドキュメントにも詳しい説明があります",
    "別の方法としてはこんなアプローチもあります",
    "最新バージョンでは仕様が変更されています",
    "このライブラリを使うとより簡単に実装できます"
  ]

  const THANKS: seq<string> := [
    "今後も記事を楽しみにしています",
    "他の記事も読ませていただきます",
    "とても分かりやすい説明でした",
    "実務で活用させていただきます"
  ]

  // Milliseconds in a minute, an hour and a day.
  const MINUTE: int := 60_000
  const HOUR: int := 3_600_000
  const DAY: int := 86_400_000

  // ---------------------------------------------------------------------
  // Math.random() as an oracle
  // ---------------------------------------------------------------------

  /** The values successive calls of `Math.random()` return: an arbitrary
      stream of reals in [0, 1), consumed one draw at a time. */
  class RandomSource {
    const draw: nat -> real
    var cursor: nat

    ghost predicate Valid()
    {
      forall k: nat :: 0.0 <= draw(k) < 1.0
    }

    constructor (draw: nat -> real)
      requires forall k: nat :: 0.0 <= draw(k) < 1.0
      ensures Valid() && this.draw == draw && cursor == 0
    {
      this.draw := draw;
      cursor := 0;
    }

    /** One call of `Math.random()`. */
    method Next() returns (u: real)
      requires Valid()
      modifies this
      ensures u == draw(old(cursor)) && cursor == old(cursor) + 1
      ensures 0.0 <= u < 1.0
    {
      u := draw(cursor);
      cursor := cursor + 1;
    }
  }

  /** `Math.floor(u * n)`: an index of an n-element array. */
  function RandomIndex(u: real, n: nat): (i: nat)
    requires 0.0 <= u < 1.0 && 0 < n
    ensures i < n
  {
    assert 0.0 <= u * n as real < n as real;
    (u * n as real).Floor
  }

  /** `randomNumber(min, max)`, given the value `u` that `Math.random()` returned. */
  function RandomNumber(u: real, min: int, max: int): (n: int)
    requires 0.0 <= u < 1.0
    ensures min <= max ==> min <= n <= max
  {
    if min <= max then RandomIndex(u, max - min + 1) + min
    else (u * (max - min + 1) as real).Floor + min
  }

  /** `randomNumber(min, max)` drawing from the oracle. */
  method NextNumber(rng: RandomSource, min: int, max: int) returns (n: int)
    requires rng.Valid()
    modifies rng
    ensures min <= max ==> min <= n <= max
    ensures rng.cursor == old(rng.cursor) + 1
  {
    var u := rng.Next();
    n := RandomNumber(u, min, max);
  }

  /** `randomElement(array)`; every array the generators pass is a non-empty constant. */
  method RandomElement<T>(rng: RandomSource, arr: seq<T>) returns (x: T)
    requires rng.Valid() && |arr| > 0
    modifies rng
    ensures x in arr
  {
    var u := rng.Next();
    x := arr[RandomIndex(u, |arr|)];
  }

  predicate Distinct<T(==)>(s: seq<T>)
  {
    forall i, j :: 0 <= i < j < |s| ==> s[i] != s[j]
  }

  /** A repetition-free sequence holds each value at most once. */
  lemma {:induction false} DistinctMultiplicity<T>(s: seq<T>, x: T)
    requires Distinct(s)
    ensures multiset(s)[x] <= 1
  {
    if s != [] {
      assert s == [s[0]] + s[1..];
      assert Distinct(s[1..]);
      DistinctMultiplicity(s[1..], x);
      if s[0] == x {
        assert x !in s[1..];
      }
    }
  }

  /** Taking a sub-multiset of a repetition-free sequence keeps it repetition-free. */
  lemma SubMultisetDistinct<T>(r: seq<T>, s: seq<T>)
    requires Distinct(s) && multiset(r) <= multiset(s)
    ensures Distinct(r)
  {
    forall i, j | 0 <= i < j < |r| ensures r[i] != r[j] {
      if r[i] == r[j] {
        var x := r[i];
        assert r == r[..i] + [x] + r[i + 1..j] + [x] + r[j + 1..];
        assert multiset(r)[x] >= 2;
        DistinctMultiplicity(s, x);
        assert false;
      }
    }
  }

  /** `randomElements(array, count)`: the array is shuffled by the oracle
      (the source sorts it with a random comparator) and the first `count`
      elements are kept. */
  method RandomElements<T>(rng: RandomSource, arr: seq<T>, count: int) returns (r: seq<T>)
    requires rng.Valid()
    modifies rng
    ensures multiset(r) <= multiset(arr)
    ensures 0 <= count ==> |r| == Min(count, |arr|)
    ensures Distinct(arr) ==> Distinct(r)
  {
    var rest := arr;
    var shuffled: seq<T> := [];
    while rest != []
      invariant multiset(shuffled) + multiset(rest) == multiset(arr)
      invariant |shuffled| + |rest| == |arr|
      decreases |rest|
    {
      var u := rng.Next();
      var k := RandomIndex(u, |rest|);
      assert rest == rest[..k] + [rest[k]] + rest[k + 1..];
      shuffled := shuffled + [rest[k]];
      rest := rest[..k] + rest[k + 1..];
    }
    SlicePrefix(shuffled, count);
    r := Slice(shuffled, 0, count);
    if Distinct(arr) {
      SubMultisetDistinct(r, arr);
    }
  }

  // ---------------------------------------------------------------------
  // Dates
  // ---------------------------------------------------------------------

  /** The start of the day that contains instant `t`. */
  function DayStart(t: int): int { t - t % DAY }

  /** `randomDate`: today's date moved back `d` days, with the hour set to `h`
      and the minute to `m`; seconds and milliseconds stay those of `now`. */
  function DateAt(now: int, d: int, h: int, m: int): (t: int)
    requires 0 <= h <= 23 && 0 <= m <= 59
    ensures DayStart(now) - d * DAY <= t < DayStart(now) - d * DAY + DAY
  {
    DayStart(now) - d * DAY + h * HOUR + m * MINUTE + now % MINUTE
  }

  /** `randomDate(daysAgo)`: an instant within the last `daysAgo` days (counted by calendar day). */
  method RandomDate(rng: RandomSource, now: int, daysAgo: nat) returns (t: int)
    requires rng.Valid()
    modifies rng
    ensures DayStart(now) - daysAgo * DAY <= t < DayStart(now) + DAY
  {
    var d := NextNumber(rng, 0, daysAgo);
    var h := NextNumber(rng, 0, 23);
    var m := NextNumber(rng, 0, 59);
    t := DateAt(now, d, h, m);
  }

  // ---------------------------------------------------------------------
  // Decimal numbers (template literals `${i}`)
  // ---------------------------------------------------------------------

  function DigitChar(d: nat): char
    requires d < 10
  {
    "0123456789"[d]
  }

  /** The decimal notation of a natural number. */
  function NatToString(n: nat): (r: string)
    ensures 1 <= |r|
    ensures 10 <= n ==> 2 <= |r|
    ensures forall i :: 0 <= i < |r| ==> '0' <= r[i] <= '9'
  {
    if n < 10 then [DigitChar(n)] else NatToString(n / 10) + [DigitChar(n % 10)]
  }

  lemma DigitCharInjective(x: nat, y: nat)
    requires x < 10 && y < 10 && DigitChar(x) == DigitChar(y)
    ensures x == y
  {
  }

  /** A number of two or more digits prints as its tens followed by its last digit. */
  lemma NatToStringSplit(n: nat)
    requires 10 <= n
    ensures var s := NatToString(n);
            s[..|s| - 1] == NatToString(n / 10) && s[|s| - 1] == DigitChar(n % 10)
  {
  }

  /** Distinct numbers have distinct decimal notations. */
  lemma {:induction false} NatToStringInjective(a: nat, b: nat)
    requires NatToString(a) == NatToString(b)
    ensures a == b
    decreases a + b
  {
    if a < 10 && b < 10 {
      DigitCharInjective(a, b);
    } else if 10 <= a && 10 <= b {
      NatToStringSplit(a);
      NatToStringSplit(b);
      NatToStringInjective(a / 10, b / 10);
      DigitCharInjective(a % 10, b % 10);
    }
  }

  /** The id `article-${i}`. */
  function ArticleId(i: nat): string { "article-" + NatToString(i) }

  lemma ArticleIdInjective(i: nat, j: nat)
    requires ArticleId(i) == ArticleId(j)
    ensures i == j
  {
    assert NatToString(i) == ArticleId(i)[8..] == ArticleId(j)[8..] == NatToString(j);
    NatToStringInjective(i, j);
  }

  // ---------------------------------------------------------------------
  // generateSlug
  // ---------------------------------------------------------------------

  /** The character class `[a-z0-9]`. */
  predicate IsSlugChar(c: char) { 'a' <= c <= 'z' || '0' <= c <= '9' }

  /** Drops the maximal leading run of characters outside `[a-z0-9]`. */
  function SkipRun(s: string): (r: string)
    ensures |r| <= |s| && r == s[|s| - |r|..]
    ensures r == [] || IsSlugChar(r[0])
    ensures s != [] && !IsSlugChar(s[0]) ==> |r| < |s|
  {
    if s == [] || IsSlugChar(s[0]) then s else SkipRun(s[1..])
  }

  /** `.replace(/[^a-z0-9]+/g, '-')`: each maximal run of other characters becomes one `-`. */
  function ReplaceRuns(s: string): (r: string)
    decreases |s|
  {
    if s == [] then []
    else if IsSlugChar(s[0]) then [s[0]] + ReplaceRuns(s[1..])
    else "-" + ReplaceRuns(SkipRun(s))
  }

  /** `.replace(/^-+/, '')`. */
  function TrimStart(s: string): string
  {
    if s != [] && s[0] == '-' then TrimStart(s[1..]) else s
  }

  /** `.replace(/-+$/, '')`. */
  function TrimEnd(s: string): string
  {
    if s != [] && s[|s| - 1] == '-' then TrimEnd(s[..|s| - 1]) else s
  }

  /** `SkipRun` on the lower-cased string, one character at a time. */
  function SkipLowerRun(s: string): (r: string)
    ensures |r| <= |s|
    ensures s != [] && !IsSlugChar(ToLowerChar(s[0])) ==> |r| < |s|
  {
    if s == [] || IsSlugChar(ToLowerChar(s[0])) then s else SkipLowerRun(s[1..])
  }

  /** `ReplaceRuns` fused with lower-casing; `LowerRunsIsReplaceRuns` shows they agree. */
  function LowerRuns(s: string): string
    decreases |s|
  {
    if s == [] then []
    else if IsSlugChar(ToLowerChar(s[0])) then [ToLowerChar(s[0])] + LowerRuns(s[1..])
    else "-" + LowerRuns(SkipLowerRun(s))
  }

  lemma {:induction false} SkipLowerRunIsSkipRun(s: string)
    ensures SkipRun(ToLower(s)) == ToLower(SkipLowerRun(s))
  {
    if s != [] && !IsSlugChar(ToLowerChar(s[0])) {
      SkipLowerRunIsSkipRun(s[1..]);
      ToLowerTail(s);
    }
  }

  /** Lower-casing and then replacing runs, as `title.toLowerCase().replace(...)` does. */
  lemma {:induction false} LowerRunsIsReplaceRuns(s: string)
    ensures LowerRuns(s) == ReplaceRuns(ToLower(s))
    decreases |s|
  {
    if s != [] {
      var t := ToLower(s);
      assert t[0] == ToLowerChar(s[0]);
      if IsSlugChar(ToLowerChar(s[0])) {
        LowerRunsIsReplaceRuns(s[1..]);
        ToLowerTail(s);
      } else {
        SkipLowerRunIsSkipRun(s);
        LowerRunsIsReplaceRuns(SkipLowerRun(s));
      }
    }
  }

  /** `generateSlug(title)`. */
  function GenerateSlug(title: string): string
  {
    TrimEnd(TrimStart(LowerRuns(title)))
  }

  predicate SlugOrDash(c: char) { IsSlugChar(c) || c == '-' }

  predicate NoDoubleDash(s: string)
  {
    forall i :: 0 <= i < |s| - 1 ==> !(s[i] == '-' && s[i + 1] == '-')
  }

  /** The shape of a slug: only `[a-z0-9-]`, no `--`, no `-` at either end. */
  predicate IsSlug(s: string)
  {
    (forall i :: 0 <= i < |s| ==> SlugOrDash(s[i])) &&
    NoDoubleDash(s) &&
    (s != [] ==> s[0] != '-' && s[|s| - 1] != '-')
  }

  lemma {:induction false} ReplaceRunsShape(s: string)
    ensures forall i :: 0 <= i < |ReplaceRuns(s)| ==> SlugOrDash(ReplaceRuns(s)[i])
    ensures NoDoubleDash(ReplaceRuns(s))
    ensures s != [] && IsSlugChar(s[0]) ==> ReplaceRuns(s)[0] == s[0]
    decreases |s|
  {
    if s == [] {
    } else if IsSlugChar(s[0]) {
      ReplaceRunsShape(s[1..]);
    } else {
      var t := SkipRun(s);
      ReplaceRunsShape(t);
      var r := ReplaceRuns(s);
      assert r == "-" + ReplaceRuns(t);
      assert r[1..] == ReplaceRuns(t);
    }
  }

  /** A piece of a string keeps its characters and its lack of `--`. */
  lemma PieceShape(s: string, i: nat, j: nat)
    requires i <= j <= |s|
    requires forall k :: 0 <= k < |s| ==> SlugOrDash(s[k])
    requires NoDoubleDash(s)
    ensures forall k :: 0 <= k < |s[i..j]| ==> SlugOrDash(s[i..j][k])
    ensures NoDoubleDash(s[i..j])
  {
    var t := s[i..j];
    forall k | 0 <= k < |t| - 1 ensures !(t[k] == '-' && t[k + 1] == '-') {
      assert t[k] == s[i + k] && t[k + 1] == s[i + k + 1];
    }
  }

  /** Only `[a-z0-9-]`, and no `--`. */
  predicate DashedRuns(s: string)
  {
    (forall k :: 0 <= k < |s| ==> SlugOrDash(s[k])) && NoDoubleDash(s)
  }

  /** Dropping the leading dashes keeps the shape and leaves no leading dash. */
  lemma {:induction false} TrimStartShapeKept(s: string)
    requires DashedRuns(s)
    ensures DashedRuns(TrimStart(s))
    ensures TrimStart(s) == [] || TrimStart(s)[0] != '-'
  {
    if s != [] && s[0] == '-' {
      PieceShape(s, 1, |s|);
      assert s[1..|s|] == s[1..];
      TrimStartShapeKept(s[1..]);
    }
  }

  /** Dropping the trailing dashes of a string without a leading dash leaves a slug. */
  lemma {:induction false} TrimEndShapeKept(s: string)
    requires DashedRuns(s) && (s == [] || s[0] != '-')
    ensures IsSlug(TrimEnd(s))
  {
    if s != [] && s[|s| - 1] == '-' {
      PieceShape(s, 0, |s| - 1);
      assert s[0..|s| - 1] == s[..|s| - 1];
      TrimEndShapeKept(s[..|s| - 1]);
    }
  }

  /** Every output of `generateSlug` has the shape of a slug. */
  lemma GenerateSlugShape(title: string)
    ensures IsSlug(GenerateSlug(title))
  {
    LowerRunsIsReplaceRuns(title);
    ReplaceRunsShape(ToLower(title));
    TrimStartShapeKept(ReplaceRuns(ToLower(title)));
    TrimEndShapeKept(TrimStart(ReplaceRuns(ToLower(title))));
  }

  lemma {:induction false} ReplaceRunsFixpoint(s: string)
    requires forall i :: 0 <= i < |s| ==> SlugOrDash(s[i])
    requires NoDoubleDash(s)
    ensures ReplaceRuns(s) == s
    decreases |s|
  {
    if s == [] {
    } else if IsSlugChar(s[0]) {
      ReplaceRunsFixpoint(s[1..]);
      assert s == [s[0]] + s[1..];
    } else {
      assert SkipRun(s) == s[1..] by {
        if s[1..] != [] {
          assert s[1] != '-';
          assert IsSlugChar(s[1..][0]);
        }
      }
      ReplaceRunsFixpoint(s[1..]);
      assert s == "-" + s[1..];
    }
  }

  /** A slug is left unchanged by `generateSlug`. */
  lemma SlugFixpoint(s: string)
    requires IsSlug(s)
    ensures GenerateSlug(s) == s
  {
    assert ToLower(s) == s;
    LowerRunsIsReplaceRuns(s);
    ReplaceRunsFixpoint(s);
  }

  /** `generateSlug` is idempotent. */
  lemma GenerateSlugIdempotent(title: string)
    ensures GenerateSlug(GenerateSlug(title)) == GenerateSlug(title)
  {
    GenerateSlugShape(title);
    SlugFixpoint(GenerateSlug(title));
  }

  // ---------------------------------------------------------------------
  // generateArticleContent
  // ---------------------------------------------------------------------

  /** `generateSectionTitle`'s choices. */
  function SectionTitles(category: string): seq<string>
  {
    [category + "の基本概念", category + "の実装方法", category + "のベストプラクティス",
     category + "の注意点", category + "の応用例", category + "のトラブルシューティング"]
  }

  /** Paragraph `k` of the four choices of `generateParagraph`. */
  function ParagraphText(category: string, k: nat): string
    requires k < 4
  {
    match k
    case 0 => category + "を使用することで、開発効率が大幅に向上します。特に、大規模なアプリケーションにおいては、その恩恵を強く感じることができるでしょう。"
    case 1 => "最新のバージョンでは、" + category + "に多くの改善が加えられました。パフォーマンスの向上やDXの改善により、より快適な開発体験が可能になっています。"
    case 2 => "実際のプロジェクトで" + category + "を活用する際は、チーム全体で統一されたルールを設けることが重要です。これにより、コードの一貫性が保たれ、メンテナンスが容易になります。"
    case _ => category + "の学習曲線は比較的緩やかですが、高度な機能を使いこなすには継続的な学習が必要です。公式ドキュメントやコミュニティのリソースを活用しましょう。"
  }


  const NEXTJS_SNIPPET: string :=
    "export default function Page() {\n  return (\n    <div className=\"container\">\n      <h1>Welcome to Next.js</h1>\n    </div>\n  );\n}"

  /** `generateCodeSnippet(category)`: the snippet for the category name, the Next.js one otherwise. */
  function CodeSnippet(category: string): string
  {
    if category == "TypeScript" then
      "interface User {\n  id: string;\n  name: string;\n  email: string;\n}\n\nfunction getUser(id: string): User {\n  // 実装\n}"
    else if category == "React" then
      "const Component = () => {\n  const [state, setState] = useState(0);\n  \n  return <div>{state}</div>;\n};"
    else if category == "Performance" then
      "// メモ化による最適化\nconst MemoizedComponent = React.memo(Component, (prev, next) => {\n  return prev.id === next.id;\n});"
    else if category == "Testing" then
      "test('should render correctly', () => {\n  const { getByText } = render(<Component />);\n  expect(getByText('Hello')).toBeInTheDocument();\n});"
    else NEXTJS_SNIPPET
  }

  /** The opening of every generated article body. */
  function ContentHeader(title: string, category: string): string
  {
    "# " + title + "\n\n" + "この記事では、" + category + "について詳しく解説していきます。\n\n"
  }

  /** The closing section of every generated article body. */
  function ContentClosing(category: string): string
  {
    "## まとめ\n\n" + "今回は" + category + "について解説しました。これらのテクニックを活用して、より良いアプリケーションを構築していきましょう。\n"
  }

  function SectionHeading(i: nat): string { "## セクション" + NatToString(i) + ": " }

  predicate EndsWith(s: string, suffix: string)
  {
    |suffix| <= |s| && s[|s| - |suffix|..] == suffix
  }

  /** Section `i` of an article body: a heading, a paragraph, a code block
      on a draw above one half, and a second paragraph. */
  method GenerateSection(rng: RandomSource, i: nat, category: string) returns (part: string)
    requires rng.Valid()
    modifies rng
    ensures SectionHeading(i) <= part
  {
    var sectionTitle := PickSectionTitle(rng, category);
    var first := PickParagraph(rng, category);
    var u := rng.Next();
    var code := if u > 0.5 then CodeBlock(category) else "";
    var second := PickParagraph(rng, category);
    part := SectionHeading(i) + (sectionTitle + "\n\n" + first + "\n\n" + code + second + "\n\n");
  }

  /** `generateSectionTitle(category)`: one of the six section titles of the category. */
  method PickSectionTitle(rng: RandomSource, category: string) returns (t: string)
    requires rng.Valid()
    modifies rng
    ensures t in SectionTitles(category)
  {
    var u := rng.Next();
    var titles := SectionTitles(category);
    t := titles[RandomIndex(u, |titles|)];
  }

  /** `generateParagraph(category)`: one of the four paragraphs about the category. */
  method PickParagraph(rng: RandomSource, category: string) returns (p: string)
    requires rng.Valid()
    modifies rng
    ensures exists k :: 0 <= k < 4 && p == ParagraphText(category, k)
  {
    var u := rng.Next();
    p := ParagraphText(category, RandomIndex(u, 4));
  }

  /** The fenced code block of a section. */
  function CodeBlock(category: string): string
  {
    "```typescript\n" + CodeSnippet(category) + "\n```\n\n"
  }

  /** `generateArticleContent(title, category)`: a header, three to six
      sections (each with an optional code block), and a closing section. */
  method GenerateArticleContent(rng: RandomSource, title: string, category: string)
    returns (content: string)
    requires rng.Valid()
    modifies rng
    ensures ContentHeader(title, category) <= content
    ensures EndsWith(content, ContentClosing(category))
  {
    var sections := NextNumber(rng, 3, 6);
    content := "# " + title + "\n\n";
    content := content + "この記事では、" + category + "について詳しく解説していきます。\n\n";
    assert content == ContentHeader(title, category);
    var i := 1;
    while i <= sections
      invariant ContentHeader(title, category) <= content
    {
      var part := GenerateSection(rng, i, category);
      content := content + part;
      i := i + 1;
    }
    var closing := ContentClosing(category);
    content := content + closing;
    assert content[|content| - |closing|..] == closing;
  }

  // ---------------------------------------------------------------------
  // generateMockArticles
  // ---------------------------------------------------------------------

  const EXCERPT_SUFFIX: string :=
    "についての詳細な解説記事です。初心者から上級者まで幅広く参考になる内容となっています。"

  lemma TagsDistinct()
    ensures Distinct(TAGS)
  {
  }

  /** What the generator promises of the article it builds in round `i`
      (1-based) of its loop, with the clock reading `now`. */
  predicate IsGeneratedArticle(a: Article, i: nat, now: int)
  {
    a.id == ArticleId(i) &&
    a.slug == GenerateSlug(a.title) + "-" + NatToString(i) &&
    a.excerpt == a.title + EXCERPT_SUFFIX &&
    a.featured == (i <= 3) &&
    2 <= |a.tags| <= 4 && Distinct(a.tags) && (forall t :: t in a.tags ==> t in TAGS) &&
    DayStart(now) - 90 * DAY <= a.publishedAt < DayStart(now) + DAY &&
    a.publishedAt <= a.updatedAt <= a.publishedAt + 7 * DAY &&
    100 <= a.viewCount <= 10000 &&
    10 <= a.likeCount <= 500 &&
    0 <= a.commentCount <= 50 &&
    3 <= a.readingTime <= 15
  }

  /** The title chain `template.replace('{category}', …)…replace('{year}', '2024')`:
      each placeholder's first occurrence takes its value, in this order. */
  function FillTitle(template: string, category: string, feature: string,
                     pattern: string, problem: string, project: string): string
  {
    var t1 := ReplaceFirst(template, "{category}", category);
    var t2 := ReplaceFirst(t1, "{feature}", feature);
    var t3 := ReplaceFirst(t2, "{pattern}", pattern);
    var t4 := ReplaceFirst(t3, "{problem}", problem);
    var t5 := ReplaceFirst(t4, "{project}", project);
    ReplaceFirst(t5, "{year}", "2024")
  }

  /** The title: a template with its placeholders filled by the category's
      name and values drawn from the fixed lists, in the source's order. */
  method GenerateTitle(rng: RandomSource, category: Category) returns (title: string)
    requires rng.Valid()
    modifies rng
    ensures rng.Valid()
    ensures exists template, feature, pattern, problem, project ::
              template in TITLE_TEMPLATES && feature in FEATURES && pattern in PATTERNS &&
              problem in PROBLEMS && project in PROJECTS &&
              title == FillTitle(template, category.name, feature, pattern, problem, project)
  {
    var template := RandomElement(rng, TITLE_TEMPLATES);
    title := ReplaceFirst(template, "{category}", category.name);
    var feature := RandomElement(rng, FEATURES);
    title := ReplaceFirst(title, "{feature}", feature);
    var pattern := RandomElement(rng, PATTERNS);
    title := ReplaceFirst(title, "{pattern}", pattern);
    var problem := RandomElement(rng, PROBLEMS);
    title := ReplaceFirst(title, "{problem}", problem);
    var project := RandomElement(rng, PROJECTS);
    title := ReplaceFirst(title, "{project}", project);
    title := ReplaceFirst(title, "{year}", "2024");
    assert title == FillTitle(template, category.name, feature, pattern, problem, project);
  }

  /** No placeholder can start inside `s`. */
  predicate BraceFree(s: string) { '{' !in s }

  /** The later placeholders find nothing to replace in a brace-free title. */
  lemma FillRestBraceFree(t: string, pattern: string, problem: string, project: string)
    requires BraceFree(t)
    ensures ReplaceFirst(t, "{pattern}", pattern) == t
    ensures ReplaceFirst(t, "{problem}", problem) == t
    ensures ReplaceFirst(t, "{project}", project) == t
    ensures ReplaceFirst(t, "{year}", "2024") == t
  {
    assert t + [] == t;
    ReplaceFirstSkip(t, [], "{pattern}", pattern);
    ReplaceFirstSkip(t, [], "{problem}", problem);
    ReplaceFirstSkip(t, [], "{project}", project);
    ReplaceFirstSkip(t, [], "{year}", "2024");
  }

  /** `{category}` in the middle of a template is filled where it stands. */
  lemma FillTitleCategorySlot(pre: string, post: string, name: string, feature: string,
                              pattern: string, problem: string, project: string)
    requires BraceFree(pre) && BraceFree(post) && BraceFree(name)
    ensures FillTitle(pre + "{category}" + post, name, feature, pattern, problem, project)
         == pre + name + post
  {
    assert pre + "{category}" + post == pre + ("{category}" + post);
    ReplaceFirstSkip(pre, "{category}" + post, "{category}", name);
    ReplaceFirstHead("{category}", post, name);
    var t := pre + (name + post);
    assert t == pre + name + post;
    assert BraceFree(t);
    assert t + [] == t;
    ReplaceFirstSkip(t, [], "{feature}", feature);
    FillRestBraceFree(t, pattern, problem, project);
  }

  /** `{category}` first and `{feature}` last, with text between them. */
  lemma FillTitleFeatureSlot(mid: string, name: string, feature: string,
                             pattern: string, problem: string, project: string)
    requires BraceFree(mid) && BraceFree(name) && BraceFree(feature)
    ensures FillTitle("{category}" + mid + "{feature}", name, feature, pattern, problem, project)
         == name + mid + feature
  {
    assert "{category}" + mid + "{feature}" == "{category}" + (mid + "{feature}");
    ReplaceFirstHead("{category}", mid + "{feature}", name);
    assert name + (mid + "{feature}") == (name + mid) + "{feature}";
    assert BraceFree(name + mid);
    ReplaceFirstSkip(name + mid, "{feature}", "{feature}", feature);
    ReplaceFirstHead("{feature}", [], feature);
    assert "{feature}" + [] == "{feature}";
    assert feature + [] == feature;
    var t := (name + mid) + feature;
    assert t == name + mid + feature;
    assert BraceFree(t);
    FillRestBraceFree(t, pattern, problem, project);
  }

  /** The category names and the features hold no placeholder. */
  lemma NamesBraceFree(category: Category, feature: string)
    requires category in CATEGORIES && feature in FEATURES
    ensures BraceFree(category.name) && BraceFree(feature)
  {
  }

  /** The second template reads "<category>で実装する<feature>". */
  lemma FillSecondTemplate(category: Category, feature: string,
                           pattern: string, problem: string, project: string)
    requires category in CATEGORIES && feature in FEATURES
    ensures FillTitle(TITLE_TEMPLATES[1], category.name, feature, pattern, problem, project)
         == category.name + "で実装する" + feature
  {
    var mid := "で実装する";
    assert BraceFree(mid);
    NamesBraceFree(category, feature);
    assert TITLE_TEMPLATES[1] == "{category}" + mid + "{feature}";
    FillTitleFeatureSlot(mid, category.name, feature, pattern, problem, project);
  }

  /** The fourth template reads "初心者でもわかる<category>入門". */
  lemma FillFourthTemplate(category: Category, feature: string,
                           pattern: string, problem: string, project: string)
    requires category in CATEGORIES
    ensures FillTitle(TITLE_TEMPLATES[3], category.name, feature, pattern, problem, project)
         == "初心者でもわかる" + category.name + "入門"
  {
    var pre, post := "初心者でもわかる", "入門";
    assert BraceFree(pre) && BraceFree(post);
    NamesBraceFree(category, FEATURES[0]);
    assert TITLE_TEMPLATES[3] == pre + "{category}" + post;
    FillTitleCategorySlot(pre, post, category.name, feature, pattern, problem, project);
  }

  /** Two to four distinct tags picked from the tag list. */
  method GenerateTags(rng: RandomSource) returns (tags: seq<string>)
    requires rng.Valid()
    modifies rng
    ensures rng.Valid()
    ensures 2 <= |tags| <= 4 && Distinct(tags) && (forall t :: t in tags ==> t in TAGS)
  {
    var tagCount := NextNumber(rng, 2, 4);
    TagsDistinct();
    tags := RandomElements(rng, TAGS, tagCount);
    forall t | t in tags ensures t in TAGS {
      assert t in multiset(tags);
    }
  }

  lemma DaysWithinWeek(days: int)
    requires 0 <= days <= 7
    ensures 0 <= days * DAY <= 7 * DAY
  {
  }

  /** The author and the category are taken from the fixed lists. */
  predicate FromPools(a: Article)
  {
    a.author in AUTHORS && a.category in CATEGORIES
  }

  /** Builds the article of loop round `i`, drawing its fields in the source's
      order; the tag shuffle takes one draw per tag, where the source's
      comparator takes one per comparison. */
  method GenerateArticle(rng: RandomSource, i: nat, now: int) returns (a: Article)
    requires rng.Valid()
    modifies rng
    ensures rng.Valid()
    ensures IsGeneratedArticle(a, i, now) && FromPools(a)
  {
    var category := RandomElement(rng, CATEGORIES);
    var author := RandomElement(rng, AUTHORS);
    var publishedAt := RandomDate(rng, now, 90);
    var title := GenerateTitle(rng, category);
    var content := GenerateArticleContent(rng, title, category.name);
    var tags := GenerateTags(rng);
    var days := NextNumber(rng, 0, 7);
    DaysWithinWeek(days);
    var viewCount := NextNumber(rng, 100, 10000);
    var likeCount := NextNumber(rng, 10, 500);
    var commentCount := NextNumber(rng, 0, 50);
    var readingTime := NextNumber(rng, 3, 15);
    a := Article(
      ArticleId(i), GenerateSlug(title) + "-" + NatToString(i), title, title + EXCERPT_SUFFIX,
      content, author, category, tags, publishedAt, publishedAt + days * DAY,
      viewCount, likeCount, commentCount, readingTime, i <= 3);
  }

  /** Article `k` (0-based) of `s` is the one built in round `k + 1`. */
  predicate RoundsGenerated(s: seq<Article>, now: int)
  {
    forall k :: 0 <= k < |s| ==> IsGeneratedArticle(s[k], k + 1, now)
  }

  /** `generateMockArticles(count)`: articles `article-1` .. `article-count`,
      the first three featured, returned newest first: the stable sort by
      publication date of the articles in the order the loop built them. */
  method GenerateMockArticles(rng: RandomSource, count: int, now: int) returns (articles: seq<Article>)
    requires rng.Valid()
    modifies rng
    ensures |articles| == Max(count, 0)
    ensures exists built :: |built| == Max(count, 0) && RoundsGenerated(built, now) &&
                            articles == SortDesc(built, PublishedAtOf)
    ensures forall a :: a in articles ==> FromPools(a)
    ensures SortedDesc(articles, PublishedAtOf)
  {
    var built: seq<Article> := [];
    var i := 1;
    while i <= count
      invariant 1 <= i <= Max(count, 0) + 1
      invariant |built| == i - 1
      invariant RoundsGenerated(built, now)
      invariant forall a :: a in built ==> FromPools(a)
    {
      var a := GenerateArticle(rng, i, now);
      built := built + [a];
      i := i + 1;
    }
    articles := SortDesc(built, PublishedAtOf);
    forall a | a in articles ensures FromPools(a) {
      SortDescFrom(built, PublishedAtOf, a);
    }
  }

  /** Each article left after sorting was built in one of the rounds. */
  lemma RoundOfArticle(built: seq<Article>, count: int, a: Article, now: int)
    requires |built| == Max(count, 0) && RoundsGenerated(built, now)
    requires a in SortDesc(built, PublishedAtOf)
    ensures exists i :: 1 <= i <= count && IsGeneratedArticle(a, i, now)
  {
    SortDescFrom(built, PublishedAtOf, a);
    var k := IndexOf(built, a);
    assert IsGeneratedArticle(built[k], k + 1, now);
  }

  /** A position of an element of a list. */
  lemma IndexOf<T>(s: seq<T>, x: T) returns (k: nat)
    requires x in s
    ensures k < |s| && s[k] == x
  {
    k :| 0 <= k < |s| && s[k] == x;
  }


  /** The article built in round `k + 1` is still present after sorting. */
  lemma RoundKept(built: seq<Article>, count: int, k: nat, now: int)
    requires |built| == Max(count, 0) && RoundsGenerated(built, now)
    requires k < count
    ensures built[k] in SortDesc(built, PublishedAtOf)
    ensures IsGeneratedArticle(built[k], k + 1, now)
  {
    SortDescKeeps(built, PublishedAtOf, k);
  }

  // ---------------------------------------------------------------------
  // generateMockComments
  // ---------------------------------------------------------------------

  /** The id `comment-${articleId}-${i}`. */
  function CommentId(k: nat, i: nat): string { "comment-" + NatToString(k) + "-" + NatToString(i) }

  /** Whether a comment belongs to the article with the given id. */
  function IsFor(articleId: string): Comment -> bool
  {
    (c: Comment) => c.articleId == articleId
  }

  /** The number of comments on the article with the given id. */
  function CommentsFor(comments: seq<Comment>, articleId: string): nat
  {
    Count(comments, IsFor(articleId))
  }

  /** What the generator promises of each comment, for `articleCount` articles. */
  predicate IsGeneratedComment(c: Comment, articleCount: int, now: int)
  {
    (exists k: nat, i: nat :: 1 <= k <= articleCount && i < 10 &&
       c.articleId == ArticleId(k) && c.id == CommentId(k, i)) &&
    c.author in COMMENT_AUTHORS &&
    0 <= c.likes <= 20 &&
    DayStart(now) - 30 * DAY <= c.createdAt < DayStart(now) + DAY
  }

  /** `generateMockComments(articleCount)`: zero to ten comments for each of
      `article-1` .. `article-articleCount`, returned newest first. */
  method GenerateMockComments(rng: RandomSource, articleCount: int, now: int) returns (comments: seq<Comment>)
    requires rng.Valid()
    modifies rng
    ensures forall c :: c in comments ==> IsGeneratedComment(c, articleCount, now)
    ensures forall id :: CommentsFor(comments, id) <= 10
    ensures SortedDesc(comments, CreatedAtOf)
  {
    var built: seq<Comment> := [];
    var articleNum := 1;
    while articleNum <= articleCount
      invariant 1 <= articleNum <= Max(articleCount, 0) + 1
      invariant forall c :: c in built ==> IsGeneratedComment(c, articleCount, now)
      invariant forall id :: CommentsFor(built, id) <= 10
      invariant forall k: nat :: articleNum <= k ==> CommentsFor(built, ArticleId(k)) == 0
    {
      var commentCount := NextNumber(rng, 0, 10);
      var here := ArticleId(articleNum);
      ghost var before := built;
      var i := 0;
      while i < commentCount
        invariant 0 <= i <= Max(commentCount, 0) && i <= 10
        invariant forall c :: c in built ==> IsGeneratedComment(c, articleCount, now)
        invariant CommentsFor(built, here) == i
        invariant forall id :: id != here ==> CommentsFor(built, id) == CommentsFor(before, id)
      {
        var template := RandomElement(rng, COMMENT_TEMPLATES);
        var specific := RandomElement(rng, SPECIFICS);
        var content := ReplaceFirst(template, "{specific}", specific);
        var question := RandomElement(rng, QUESTIONS);
        content := ReplaceFirst(content, "{question}", question);
        var addition := RandomElement(rng, ADDITIONS);
        content := ReplaceFirst(content, "{addition}", addition);
        var thanks := RandomElement(rng, THANKS);
        content := ReplaceFirst(content, "{thanks}", thanks);
        var author := RandomElement(rng, COMMENT_AUTHORS);
        var createdAt := RandomDate(rng, now, 30);
        var likes := NextNumber(rng, 0, 20);
        var c := Comment(CommentId(articleNum, i), here, author, content, createdAt, likes);
        assert IsGeneratedComment(c, articleCount, now);
        CommentsForSnoc(built, c);
        built := built + [c];
        i := i + 1;
      }
      forall k: nat | articleNum + 1 <= k ensures CommentsFor(built, ArticleId(k)) == 0 {
        if ArticleId(k) == here {
          ArticleIdInjective(k, articleNum);
        }
      }
      articleNum := articleNum + 1;
    }
    comments := SortDesc(built, CreatedAtOf);
    SortCommentsKeeps(built, articleCount, now);
  }

  lemma CommentsForSnoc(built: seq<Comment>, c: Comment)
    ensures forall id :: CommentsFor(built + [c], id) == CommentsFor(built, id) + (if c.articleId == id then 1 else 0)
  {
    forall id ensures CommentsFor(built + [c], id) == CommentsFor(built, id) + (if c.articleId == id then 1 else 0) {
      CountAppend(built, [c], IsFor(id));
    }
  }

  /** Sorting newest first keeps what each comment promises and the count per article. */
  lemma SortCommentsKeeps(built: seq<Comment>, articleCount: int, now: int)
    requires forall c :: c in built ==> IsGeneratedComment(c, articleCount, now)
    requires forall id :: CommentsFor(built, id) <= 10
    ensures forall c :: c in SortDesc(built, CreatedAtOf) ==> IsGeneratedComment(c, articleCount, now)
    ensures forall id :: CommentsFor(SortDesc(built, CreatedAtOf), id) <= 10
  {
    var comments := SortDesc(built, CreatedAtOf);
    forall c | c in comments ensures IsGeneratedComment(c, articleCount, now) {
      SortDescFrom(built, CreatedAtOf, c);
    }
    forall id ensures CommentsFor(comments, id) <= 10 {
      SortDescCount(built, CreatedAtOf, IsFor(id));
      assert CommentsFor(comments, id) == CommentsFor(built, id);
    }
  }

  // ---------------------------------------------------------------------
  // generateMockAnalytics
  // ---------------------------------------------------------------------

  function ViewsOf(m: ViewMetric): int { m.views }

  function UniqueViewsOf(m: ViewMetric): int { m.uniqueViews }

  function ReferrerCountOf(r: Referrer): int { r.count }

  const REFERRER_SOURCES: seq<string> := ["Google", "Twitter", "GitHub", "Direct", "Others"]

  /** `Math.round(count / total * 100)`, computed exactly. */
  function RoundPercent(count: int, total: int): (p: int)
    requires 0 <= count <= total && 0 < total
    ensures 0 <= p <= 100
  {
    RoundedShareAtMost100(count, total);
    (200 * count + total) / (2 * total)
  }

  lemma MulSign(x: int, y: int)
    ensures 0 <= x && 0 <= y ==> 0 <= x * y
  {
  }

  lemma RoundedShareAtMost100(count: int, total: int)
    requires 0 <= count <= total && 0 < total
    ensures 0 <= (200 * count + total) / (2 * total) <= 100
  {
    var n, d := 200 * count + total, 2 * total;
    var q := n / d;
    assert d * q + n % d == n;
    assert n < d * 101;
    MulSign(d, q - 101);
  }

  /** The thirty days of views, oldest first, ending with today's day number. */
  method GenerateViewsByDate(rng: RandomSource, now: int) returns (viewsByDate: seq<ViewMetric>)
    requires rng.Valid()
    modifies rng
    ensures |viewsByDate| == 30
    ensures forall k :: 0 <= k < 30 ==> viewsByDate[k].day == now / DAY - 29 + k
    ensures forall k :: 0 <= k < 30 ==>
              1000 <= viewsByDate[k].views <= 5000 && 500 <= viewsByDate[k].uniqueViews <= 2500
  {
    viewsByDate := [];
    var i := 29;
    while i >= 0
      invariant -1 <= i <= 29
      invariant |viewsByDate| == 29 - i
      invariant forall k :: 0 <= k < |viewsByDate| ==> viewsByDate[k].day == now / DAY - 29 + k
      invariant forall k :: 0 <= k < |viewsByDate| ==>
                  1000 <= viewsByDate[k].views <= 5000 && 500 <= viewsByDate[k].uniqueViews <= 2500
    {
      var day := (now - i * DAY) / DAY;
      assert day == now / DAY - i;
      var views := NextNumber(rng, 1000, 5000);
      var uniqueViews := NextNumber(rng, 500, 2500);
      viewsByDate := viewsByDate + [ViewMetric(day, views, uniqueViews)];
      i := i - 1;
    }
  }

  /** `referrers.forEach(ref => ref.percentage = Math.round(ref.count / total * 100))`. */
  method ApplyPercentages(referrers: seq<Referrer>) returns (r: seq<Referrer>)
    requires forall k :: 0 <= k < |referrers| ==> 0 <= referrers[k].count
    requires 0 < SumOf(referrers, ReferrerCountOf)
    ensures |r| == |referrers|
    ensures forall k :: 0 <= k < |r| ==>
              r[k].source == referrers[k].source && r[k].count == referrers[k].count
    ensures forall k :: 0 <= k < |r| ==> referrers[k].count <= SumOf(referrers, ReferrerCountOf)
    ensures forall k :: 0 <= k < |r| ==>
              r[k].percentage == RoundPercent(referrers[k].count, SumOf(referrers, ReferrerCountOf))
    ensures SumOf(r, ReferrerCountOf) == SumOf(referrers, ReferrerCountOf)
  {
    var total := SumOf(referrers, ReferrerCountOf);
    forall k | 0 <= k < |referrers| ensures referrers[k].count <= total {
      SumOfElement(referrers, ReferrerCountOf, k);
    }
    r := referrers;
    var j := 0;
    while j < |r|
      invariant 0 <= j <= |r| == |referrers|
      invariant SumOf(r, ReferrerCountOf) == total
      invariant forall k :: 0 <= k < |r| ==>
                  r[k].source == referrers[k].source && r[k].count == referrers[k].count
      invariant forall k :: 0 <= k < j ==> r[k].percentage == RoundPercent(referrers[k].count, total)
    {
      var updated := r[j].(percentage := RoundPercent(r[j].count, total));
      SumOfUpdate(r, j, updated);
      r := r[j := updated];
      j := j + 1;
    }
  }

  /** The five referrers with their counts and their rounded shares of the total. */
  method GenerateReferrers(rng: RandomSource) returns (r: seq<Referrer>)
    requires rng.Valid()
    modifies rng
    ensures |r| == 5
    ensures forall k :: 0 <= k < 5 ==> r[k].source == REFERRER_SOURCES[k]
    ensures 0 < SumOf(r, ReferrerCountOf)
    ensures forall k :: 0 <= k < 5 ==> 0 <= r[k].count <= SumOf(r, ReferrerCountOf)
    ensures forall k :: 0 <= k < 5 ==>
              r[k].percentage == RoundPercent(r[k].count, SumOf(r, ReferrerCountOf))
  {
    var google := NextNumber(rng, 1000, 3000);
    var twitter := NextNumber(rng, 500, 1500);
    var github := NextNumber(rng, 300, 800);
    var direct := NextNumber(rng, 200, 600);
    var others := NextNumber(rng, 100, 300);
    var referrers := [
      Referrer("Google", google, 0), Referrer("Twitter", twitter, 0), Referrer("GitHub", github, 0),
      Referrer("Direct", direct, 0), Referrer("Others", others, 0)];
    SumOfBounds(referrers, ReferrerCountOf, 100, 3000);
    r := ApplyPercentages(referrers);
  }

  /** `generateMockAnalytics()`: thirty days of views ending today, their
      totals, and five referrers with their shares. */
  method GenerateMockAnalytics(rng: RandomSource, now: int) returns (m: AnalyticsMetrics)
    requires rng.Valid()
    modifies rng
    ensures |m.viewsByDate| == 30
    ensures forall k :: 0 <= k < 30 ==> m.viewsByDate[k].day == now / DAY - 29 + k
    ensures forall k :: 0 <= k < 30 ==>
              1000 <= m.viewsByDate[k].views <= 5000 && 500 <= m.viewsByDate[k].uniqueViews <= 2500
    ensures m.totalViews == SumOf(m.viewsByDate, ViewsOf)
    ensures m.uniqueVisitors == SumOf(m.viewsByDate, UniqueViewsOf)
    ensures 30000 <= m.totalViews <= 150000 && 15000 <= m.uniqueVisitors <= 75000
    ensures 120 <= m.avgSessionDuration <= 300 && 30 <= m.bounceRate <= 70
    ensures |m.topReferrers| == 5
    ensures forall k :: 0 <= k < 5 ==> m.topReferrers[k].source == REFERRER_SOURCES[k]
    ensures 0 < SumOf(m.topReferrers, ReferrerCountOf)
    ensures forall k :: 0 <= k < 5 ==> 0 <= m.topReferrers[k].count <= SumOf(m.topReferrers, ReferrerCountOf)
    ensures forall k :: 0 <= k < 5 ==>
              m.topReferrers[k].percentage
                == RoundPercent(m.topReferrers[k].count, SumOf(m.topReferrers, ReferrerCountOf))
  {
    var viewsByDate := GenerateViewsByDate(rng, now);
    var totalViews := SumOf(viewsByDate, ViewsOf);
    var uniqueVisitors := SumOf(viewsByDate, UniqueViewsOf);
    SumOfBounds(viewsByDate, ViewsOf, 1000, 5000);
    SumOfBounds(viewsByDate, UniqueViewsOf, 500, 2500);

    var topReferrers := GenerateReferrers(rng);
    var avgSessionDuration := NextNumber(rng, 120, 300);
    var bounceRate := NextNumber(rng, 30, 70);
    m := AnalyticsMetrics(totalViews, uniqueVisitors, avgSessionDuration, bounceRate, topReferrers, viewsByDate);
  }


  /** Changing a referrer's percentage leaves the referrer total unchanged. */
  lemma {:induction false} SumOfUpdate(rs: seq<Referrer>, j: nat, r: Referrer)
    requires j < |rs| && r.count == rs[j].count
    ensures SumOf(rs[j := r], ReferrerCountOf) == SumOf(rs, ReferrerCountOf)
  {
    if j > 0 {
      assert rs[j := r][1..] == rs[1..][j - 1 := r];
      SumOfUpdate(rs[1..], j - 1, r);
    }
  }
}
