/**
 * The inline keyboards the bot shows.  get_categories_keyboard lays the
 * seventeen categories out two to a row in a loop; the others are fixed.
 */
module Keyboards {

  /** CATEGORIES, in the order the source lists them. */
  const Categories: seq<string> := [
    "🍔 Еда вне дома",
    "🛒 Продукты",
    "🎮 Развлечения",
    "👕 Одежда",
    "✈️ Путешествия",
    "🧠 Психология/Обучение",
    "🏃‍♀️ Здоровье/Спорт",
    "👶 Дети",
    "👵 Родители",
    "🎁 Подарки",
    "🚗 Транспорт",
    "🏠 Жилье",
    "💳 Кредиты",
    "💰 Откладываем",
    "💵 Алименты",
    "⚡️ Маркетплейсы",
    "💼 Прочее"
  ]

  /** Every category label opens with a pictograph, outside ASCII. */
  lemma {:induction false} CategoriesAreSymbols()
    ensures forall c :: c in Categories ==> |c| > 0 && c[0] >= '\U{2000}'
  {
    forall k | 0 <= k < |Categories|
      ensures |Categories[k]| > 0 && Categories[k][0] >= '\U{2000}'
    {
    }
  }

  /** An inline button: its label and the callback data it sends back. */
  datatype Button = Button(text: string, callbackData: string)

  /** A button whose callback data is its own label. */
  function Echo(caption: string): (b: Button)
    ensures b.text == caption && b.callbackData == caption
  {
    Button(caption, caption)
  }

  /** Labels taken two at a time, a shorter last row when the count is odd. */
  function Layout(labels: seq<string>): seq<seq<Button>> {
    if labels == [] then []
    else if |labels| == 1 then [[Echo(labels[0])]]
    else [[Echo(labels[0]), Echo(labels[1])]] + Layout(labels[2..])
  }

  /** The full shape of the layout: row count, row widths and which label sits where. */
  lemma {:induction false} LayoutShape(labels: seq<string>)
    ensures |Layout(labels)| == (|labels| + 1) / 2
    ensures forall k :: 0 <= k < |Layout(labels)| ==>
              |Layout(labels)[k]| == (if 2 * k + 1 < |labels| then 2 else 1)
    ensures forall k, j :: 0 <= k < |Layout(labels)| && 0 <= j < |Layout(labels)[k]| ==>
              2 * k + j < |labels| && Layout(labels)[k][j] == Echo(labels[2 * k + j])
  {
    if |labels| >= 2 {
      var rest := labels[2..];
      LayoutShape(rest);
      var rows := Layout(labels);
      assert rows == [[Echo(labels[0]), Echo(labels[1])]] + Layout(rest);
      forall k | 1 <= k < |rows|
        ensures |rows[k]| == (if 2 * k + 1 < |labels| then 2 else 1)
        ensures forall j :: 0 <= j < |rows[k]| ==> 2 * k + j < |labels| && rows[k][j] == Echo(labels[2 * k + j])
      {
        assert rows[k] == Layout(rest)[k - 1];
        forall j | 0 <= j < |rows[k]| ensures 2 * k + j < |labels| && rows[k][j] == Echo(labels[2 * k + j]) {
          assert rest[2 * (k - 1) + j] == labels[2 * k + j];
        }
      }
    }
  }

  /** Concatenating the rows gives every label once, in order. */
  function Flatten(rows: seq<seq<Button>>): seq<Button> {
    if rows == [] then [] else rows[0] + Flatten(rows[1..])
  }

  lemma {:induction false} LayoutKeepsOrder(labels: seq<string>)
    ensures |Flatten(Layout(labels))| == |labels|
    ensures forall i :: 0 <= i < |labels| ==> Flatten(Layout(labels))[i] == Echo(labels[i])
  {
    if |labels| >= 2 {
      LayoutKeepsOrder(labels[2..]);
      assert Layout(labels)[1..] == Layout(labels[2..]);
    } else if |labels| == 1 {
      assert Layout(labels)[1..] == [];
    }
  }

  /** get_categories_keyboard: the loop over range(0, len(CATEGORIES), 2). */
  method CategoriesKeyboard(labels: seq<string>) returns (rows: seq<seq<Button>>)
    ensures rows == Layout(labels)
  {
    rows := [];
    var i := 0;
    while i < |labels|
      invariant i % 2 == 0 && i <= |labels| + 1
      invariant i <= |labels| ==> rows + Layout(labels[i..]) == Layout(labels)
      invariant i > |labels| ==> rows == Layout(labels)
    {
      var row := [Echo(labels[i])];
      if i + 1 < |labels| {
        row := row + [Echo(labels[i + 1])];
        var tail := labels[i..];
        assert |tail| >= 2 && tail[0] == labels[i] && tail[1] == labels[i + 1];
        assert tail[2..] == labels[i + 2..];
        assert row == [Echo(tail[0]), Echo(tail[1])];
        assert Layout(tail) == [[Echo(tail[0]), Echo(tail[1])]] + Layout(tail[2..]);
        assert Layout(tail) == [row] + Layout(labels[i + 2..]);
        assert rows + ([row] + Layout(labels[i + 2..])) == (rows + [row]) + Layout(labels[i + 2..]);
      } else {
        assert labels[i..] == [labels[i]];
        assert Layout(labels[i..]) == [row];
      }
      rows := rows + [row];
      i := i + 2;
    }
  }

  /** Seventeen categories give nine rows, the last holding a single button. */
  lemma {:induction false} CategoriesKeyboardShape()
    ensures |Categories| == 17
    ensures |Layout(Categories)| == 9
    ensures forall k :: 0 <= k < 8 ==> |Layout(Categories)[k]| == 2
    ensures |Layout(Categories)[8]| == 1 && Layout(Categories)[8][0] == Echo(Categories[16])
  {
    LayoutShape(Categories);
  }

  /** get_expense_type_keyboard */
  const ExpenseTypeKeyboard: seq<seq<Button>> :=
    [[Button("Личная", "personal")], [Button("Семейная", "family")]]

  /** get_stats_type_keyboard */
  const StatsTypeKeyboard: seq<seq<Button>> :=
    [[Button("Личная", "personal_stats")], [Button("Семейная", "family_stats")], [Button("Вся моя", "all_stats")]]

  /** get_skip_comment_keyboard */
  const SkipCommentKeyboard: seq<seq<Button>> := [[Button("Пропустить", "skip_comment")]]

  /** get_edit_fields_keyboard */
  const EditFieldsKeyboard: seq<seq<Button>> :=
    [[Button("Категория", "category")], [Button("Сумма", "amount")], [Button("Комментарий", "comment")]]

  /** The delete button shown under each recent expense. */
  function DeleteButton(expenseId: string): (b: Button)
    ensures |b.callbackData| >= 7 && b.callbackData[..7] == "delete_" && b.callbackData[7..] == expenseId
  {
    Button("❌ Удалить", "delete_" + expenseId)
  }
}
