/** The domain records of the dashboard (the interfaces of types.ts). */
module Types {
  import opened Wrappers

  /** A signed-in founder; `bio`, `avatar` and `interests` are optional fields. */
  datatype User = User(
    name: string,
    email: string,
    bio: Option<string>,
    avatar: Option<string>,
    interests: Option<seq<string>>)

  /** The three values of a task's `priority` field. */
  datatype Priority = High | Medium | Low {
    /** The string stored in the record. */
    function Label(): string {
      match this
      case High => "High"
      case Medium => "Medium"
      case Low => "Low"
    }
  }

  datatype Task = Task(id: string, title: string, priority: Priority, dueDate: string, completed: bool)

  /** A community post; `likes` is a JavaScript number used only as a counter. */
  datatype Post = Post(id: string, author: string, content: string, tags: seq<string>, likes: int, timestamp: string)

  /** Who wrote a chat message: `'user'` or `'model'`. */
  datatype Role = UserRole | ModelRole

  /** `timestamp` is a millisecond epoch value. */
  datatype ChatMessage = ChatMessage(id: string, role: Role, text: string, timestamp: int)

  datatype NewsItem = NewsItem(id: string, category: string, title: string, time: string, source: string)

  /** The pages of the single-page application. */
  datatype Page = Dashboard | Tasks | Community | Profile | Settings
}
