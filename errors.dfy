/** Every error the core raises, one constructor per distinct message of the source. */
module Errors {

  datatype Error =
    // pre-save hook of the feedback model
    | ForumFeedbackWithoutForumId        // 'Feedback de fórum deve ter forum_id'
    | P2PFeedbackWithoutRecipient        // 'Feedback P2P deve ter destinatario_id'
    | ForumFeedbackWithRecipient         // 'Feedback de fórum não pode ter destinatario_id'
    | P2PFeedbackWithForumId             // 'Feedback P2P não pode ter forum_id'
    // schema validators
    | FeedbackValidationFailed           // conteudo, a hashtag or an emoji rejected by the feedback schema
    | InvalidForumFields                 // nome, descricao or projeto outside their bounds
    | UsuarioValidationFailed            // nome, email or xp rejected by the user schema
    | InvalidStatsTag                    // a statistics tag that is empty, too long or not [a-zA-Z0-9_]+
    // forum service
    | ForumNameTaken                     // 'Já existe um fórum com esse nome'
    | ForumNotFound                      // 'Fórum não encontrado'
    | CannotRemoveCreator                // 'Não é possível remover o criador do fórum'
    // feedback service
    | UserNotFound                       // 'Usuário não encontrado'
    | NoPermissionToGiveFeedback         // 'Você não tem permissão para dar feedback neste fórum'
    | RecipientNotFound                  // 'Destinatário não encontrado'
    | SelfFeedback                       // 'Não é possível dar feedback para si mesmo'
    | FeedbackNotFound                   // 'Feedback não encontrado'
    | NoPermissionToEdit                 // 'Você não tem permissão para editar este feedback'
    | NoPermissionToDelete               // 'Você não tem permissão para deletar este feedback'
    | StatusOnlyForForumFeedback         // 'Apenas feedbacks de fórum podem ter status alterado'
    | StatusOnlyForAdmins                // 'Apenas administradores podem alterar status'
    // user service
    | EmailTaken                         // 'Email já está em uso'
    | InvalidCredentials                 // 'Credenciais inválidas'
    | JwtSecretMissing                   // 'JWT_SECRET não está configurado no servidor'
    | InvalidAchievementIndex            // 'Índice de conquista inválido. Deve ser 0, 1 ou 2'
}
