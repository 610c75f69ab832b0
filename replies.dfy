/** The fixed texts the bot sends, and the ones built from a value, exactly as the handlers write them. */
module Replies {
  import opened Wrappers
  import opened Strings
  import opened Records

  const AskNameText: string := "Введите ваше ФИО:"
  const AskPasswordText: string := "Введите пароль:"
  const WelcomeAdminText: string := "Добро пожаловать в админ-панель!"
  const WrongCredentialsText: string := "Неверное имя или пароль."
  const NoAccessText: string := "У вас нет доступа к этой функции."
  const LoggedOutText: string := "Вы вышли из админ-панели."
  const MenuText: string := "Меню:"

  const SetGroupFirstText: string := "Пожалуйста, сначала установите вашу группу с помощью команды /start."
  const NoScheduleText: string := "Расписание для вашей группы не найдено."
  const NoMaterialsText: string := "Учебные материалы для вашей группы не найдены."
  /** The replies of the second "Посмотреть материалы" handler. */
  const SetGroupByGroupText: string := "Сначала установите вашу группу с помощью команды /group."
  const NoGroupMaterialsText: string := "Для вашей группы материалов нет."
  const NoAnnouncementsText: string := "Объявлений нет."

  const AskScheduleText: string := "Введите расписание в формате: группа, день, время, предмет, местоположение."
  const ScheduleAddedText: string := "Расписание успешно добавлено."
  const AskEditKeyText: string := "Введите параметры для поиска расписания в формате: группа, день."
  const ScheduleNotFoundText: string := "Расписание не найдено. Попробуйте снова."
  const ScheduleUpdatedText: string := "Расписание успешно обновлено."

  const ChooseMaterialGroupText: string := "Выберите группу для отправки материала:"
  const ChooseClearGroupText: string := "Выберите группу для удаления материалов:"
  const UnsupportedText: string := "Тип материала не поддерживается."

  const AskAnnouncementText: string := "Введите текст объявления:"
  const EmptyAnnouncementText: string := "Текст объявления не может быть пустым."
  const AnnouncementSentText: string := "Объявление успешно отправлено всем пользователям."

  const TextMaterialTitle: string := "Текстовый материал"
  const PhotoTitle: string := "Фотография"
  const VideoTitle: string := "Видео"
  const NoDescription: string := "Нет описания"

  function GroupChangedText(group: string): string {
    "Ваша группа успешно изменена на " + group + "."
  }

  /** The prompt of the first callback handler once a material target is chosen. */
  function MaterialPromptText(target: Option<string>): string {
    "Пожалуйста, отправьте материал для группы " + Render(target)
      + ". Это может быть текстовое сообщение, документ или вложение."
  }

  /** The prompt of the admin-only callback handler once a material target is chosen. */
  function AdminMaterialPromptText(target: Option<string>): string {
    "Введите описание для материала для группы " + Render(target)
      + ", или отправьте сам материал (текст, документ, изображение, видео):"
  }

  function MaterialsClearedText(group: Option<string>): string {
    "Материалы для группы " + Render(group) + " успешно удалены."
  }

  function MaterialSentText(target: Option<string>): string {
    "Материал успешно отправлен группе " + Render(target) + "."
  }

  function AnnouncementText(text: string): string {
    "\U{1F4E2} *Объявление* \U{1F4E2}\n\n" + text
  }

  /** `description || 'Нет описания'`. */
  function DescriptionOr(description: string): string {
    if description == "" then NoDescription else description
  }

  /** One entry of the schedule reply; absent fields print as "undefined". */
  function EntryText(e: ScheduleEntry): string {
    "День: " + Render(e.day) + "\nВремя: " + Render(e.time) + "\nПредмет: " + Render(e.subject)
      + "\nМестоположение: " + Render(e.location) + "\n\n"
  }

  /** The entries' texts one after another, as the `forEach` at index.js:108-110 appends them. */
  function EntriesText(entries: seq<ScheduleEntry>): string {
    if entries == [] then ""
    else EntriesText(entries[..|entries| - 1]) + EntryText(entries[|entries| - 1])
  }

  /** The schedule reply for a group. */
  function ScheduleText(group: string, entries: seq<ScheduleEntry>): string {
    ScheduleHeader(group) + EntriesText(entries)
  }

  /** One more entry appends its block to the reply. */
  lemma ScheduleTextSnoc(group: string, entries: seq<ScheduleEntry>, i: nat)
    requires i < |entries|
    ensures ScheduleText(group, entries[..i + 1]) == ScheduleText(group, entries[..i]) + EntryText(entries[i])
  {
    assert entries[..i + 1][..i] == entries[..i];
  }

  function ScheduleHeader(group: string): string {
    "Расписание для группы " + group + ":\n\n"
  }

  /** The edit flow's echo of the found entry and its second prompt. */
  function CurrentScheduleText(e: ScheduleEntry): string {
    "Текущее расписание: " + Render(e.time) + ", " + Render(e.subject) + ", " + Render(e.location)
      + "\nВведите новое расписание в формате: время, предмет, местоположение."
  }

  /** What "Посмотреть материалы" sends for one material: its file with a caption, or the caption alone. */
  /** `${material.title}:`, the one message a material gets in the second listing. */
  function TitleLine(m: Material): string {
    Render(m.title) + ":"
  }

  function ListingPayload(m: Material): Payload {
    var caption := "Описание: " + DescriptionOr(m.description);
    if Truthy(m.fileId) then File(DocumentFile, m.fileId.value, Some(caption)) else Say(caption)
  }
}
